# Accessible parking availability dashboard — a Dafny model

This project models the rule-bearing core of a campus parking dashboard for
accessible spots: a React front end (two generations of the dashboard page and
a set of widgets) and a small Python backend route. Each core source file is a
Dafny module of its own:

| module | source file | what it holds |
|---|---|---|
| `ParkingTypes` | frontend/src/types/parking.ts | the lot and statistics records, the field sums, the lot-click selection rule |
| `ParkingData` | src/data/parkingLots.ts | the 20-lot table and `updateParkingData` with the per-lot random change as an input in [-2, 2] |
| `VoiceControl` | frontend/src/hooks/useVoiceControl.ts | the first-match keyword classifier and the listening state |
| `FavoritesJson`, `Favorites` | frontend/src/hooks/useFavorites.ts | `JSON.stringify` / `JSON.parse` of a list of strings, the list transforms and the persisting store |
| `Dashboard` | frontend/src/pages/Index.tsx | guarded statistics, configuration gate, fetch and refresh, selection |
| `LegacyDashboard` | src/pages/Index.tsx | unguarded statistics, API-key gate, simulated refresh, selection |
| `CampusCalendar` | frontend/src/components/CampusCalendarAlert.tsx | the demand decision table, current impact, today/upcoming split, colours |
| `AccessibilityScore` | frontend/src/components/AccessibilityScoreCard.tsx | record lookup, weighted score, label, colour, metric descriptions |
| `LicensePlate` | backend/routes/license_plate.py | the disabled-plate keyword test and the occupancy update |
| `PredictiveAvailability` | frontend/src/components/PredictiveAvailability.tsx | pattern lookup and the peak-hour rule |
| `WeatherAlert` | frontend/src/components/WeatherAlert.tsx | advisory predicate, icon precedence, message, the timer step |
| `ParkingBuddy` | frontend/src/components/ParkingBuddySystem.tsx | the assistance-request form |
| `ThemeToggle` | src/components/ThemeToggle.tsx | the light/dark switch with storage and the root `dark` class |

Shared helpers: `Text` (substring search as JavaScript's `includes` and
Python's `in`, ASCII case mapping, JavaScript's `trim`, Python's `" ".join`,
decimal rendering of integers), `Toasts` (the user notices), `Wrappers`
(`Option`) and `Clock` (day of week, hour and month as `Date` reports them).

State that a component or hook keeps in React state is a class whose methods
are the handlers; timer callbacks, network results, the speech engine's events,
clock readings and random numbers are method calls or parameters. Counts are
unbounded integers (JavaScript numbers and Python integers hold these values
exactly); coordinates are reals.

## Model

| member | source | states |
|---|---|---|
| Text.ContainsIff | frontend/src/hooks/useVoiceControl.ts:37 | substring search holds exactly when the text occurs at some position |
| Text.TrimEmptyIff | src/pages/Index.tsx:58 | trimming leaves nothing exactly when every character is ECMAScript white space |
| Text.JoinContainsParts | backend/routes/license_plate.py:33 | every fragment occurs in the space-joined text |
| ParkingTypes.SumsOfConsistentLots | src/pages/Index.tsx:30-34 | over lots with 0 ≤ occupied ≤ total and available = total − occupied, the available sum is the capacity sum minus the occupied sum, and the occupied sum lies in [0, capacity] |
| ParkingTypes.SumTotalSameCapacities | src/pages/Index.tsx:32 | two lists that agree lot by lot on capacity have the same capacity sum |
| ParkingTypes.ToggleSelection | frontend/src/pages/Index.tsx:83-85 | the selection becomes empty exactly when the clicked lot has the selected lot's id; otherwise the clicked lot is selected |
| ParkingData.InitialLotsConsistent | src/data/parkingLots.ts:10-191 | the table has 20 lots, each with 0 ≤ occupied ≤ total and available = total − occupied, and a positive total capacity |
| ParkingData.InitialLotsDistinctIds | src/data/parkingLots.ts:10-191 | no two lots of the table share an id |
| ParkingData.UpdateLot | src/data/parkingLots.ts:195-207 | id, name, capacity and position are kept; available = total − new occupied; the new occupied count lies in [0, total] when total ≥ 0; it is old + change when that is in range, the total when old + change exceeds it, and 0 when old + change is negative |
| ParkingData.UpdateParkingData | src/data/parkingLots.ts:194-209 | the result has the input's length and its lot i is lot i updated by change i |
| ParkingData.UpdateParkingDataShape | src/data/parkingLots.ts:194-209 | order, ids, names, capacities and positions are kept and every lot comes out consistent |
| ParkingData.UpdateLotStep | src/data/parkingLots.ts:197-201 | a lot whose count was in [0, total] moves by at most 2 |
| ParkingData.UpdateLotNoChange | src/data/parkingLots.ts:198-206 | a consistent lot with change 0 comes back unchanged |
| ParkingData.UpdateParkingDataKeepsIdsAndCapacity | src/data/parkingLots.ts:194-209 | distinct ids stay distinct and the total capacity is unchanged |
| VoiceControl.Classify | frontend/src/hooks/useVoiceControl.ts:37-54 | the command chain; its contracts are `ClassifyIsFirstMatch`, `ClassifyPriority` and `ClassifyUnknownIff` |
| VoiceControl.ClassifyIsFirstMatch | frontend/src/hooks/useVoiceControl.ts:37-54 | the `if` chain is first-match evaluation of the seven keyword rules in their fixed order |
| VoiceControl.ClassifyPriority | frontend/src/hooks/useVoiceControl.ts:37-50 | a keyword of rule i forces the command of rule i or of an earlier rule |
| VoiceControl.ClassifyUnknownIff | frontend/src/hooks/useVoiceControl.ts:51-53 | the result is unknown exactly when none of the thirteen keywords occurs |
| VoiceControl.ClassifyIgnoresCase | frontend/src/hooks/useVoiceControl.ts:33 | transcripts that differ only in letter case give the same command |
| VoiceControl.FindNearestWeatherIsSearch | frontend/src/hooks/useVoiceControl.ts:37-40 | "find the nearest weather" is a search |
| VoiceControl.UnrelatedIsUnknown | frontend/src/hooks/useVoiceControl.ts:51-53 | "xyz totally unrelated" is unknown |
| VoiceControl.UnknownNotice | frontend/src/hooks/useVoiceControl.ts:53 | the notice is an error whose text quotes the transcript |
| VoiceControl.ErrorNotices | frontend/src/hooks/useVoiceControl.ts:59-63 | "no-speech" gives the warning, "not-allowed" the error notice, any other error none |
| VoiceControl.VoiceController.constructor | frontend/src/hooks/useVoiceControl.ts:9-10 | both flags start false |
| VoiceControl.VoiceController.DetectSupport | frontend/src/hooks/useVoiceControl.ts:14-15 | the supported flag records whether the browser offers recognition; nothing else changes |
| VoiceControl.VoiceController.StartListening | frontend/src/hooks/useVoiceControl.ts:82-88 | unsupported: an error notice and no state change; supported: listening |
| VoiceControl.VoiceController.StopListening | frontend/src/hooks/useVoiceControl.ts:90-92 | listening stops |
| VoiceControl.VoiceController.OnStart | frontend/src/hooks/useVoiceControl.ts:28-30 | only in a running session; one info notice |
| VoiceControl.VoiceController.OnResult | frontend/src/hooks/useVoiceControl.ts:32-55 | only in a running session; exactly one command report with the lower-cased transcript, plus the notice when unknown |
| VoiceControl.VoiceController.OnError | frontend/src/hooks/useVoiceControl.ts:57-65 | the error's notice, then listening stops |
| VoiceControl.VoiceController.OnEnd | frontend/src/hooks/useVoiceControl.ts:67-69 | listening stops |
| FavoritesJson.Stringify | frontend/src/hooks/useFavorites.ts:16 | `JSON.stringify` of a list of strings; `Parse` inverts it (`ParseStringify`) |
| FavoritesJson.Parse | frontend/src/hooks/useFavorites.ts:7 | `JSON.parse` of an array of strings, None otherwise; it inverts `Stringify` (`ParseStringify`) |
| FavoritesJson.ParseStringify | frontend/src/hooks/useFavorites.ts:5-20 | parsing the serialisation of any list of strings gives that list back |
| Favorites.Add | frontend/src/hooks/useFavorites.ts:22-27 | the id is in the result; the old list is its prefix; it grows only when the id was absent; no duplicates are introduced |
| Favorites.Remove | frontend/src/hooks/useFavorites.ts:29-31 | the id is gone, every other id stays, no duplicates are introduced |
| Favorites.RemoveAppend | frontend/src/hooks/useFavorites.ts:30 | removal distributes over concatenation, so the other ids keep their order |
| Favorites.RemoveAbsent | frontend/src/hooks/useFavorites.ts:30 | removing an absent id changes nothing |
| Favorites.Toggle | frontend/src/hooks/useFavorites.ts:33-39 | removal when present, append when absent; its contracts are `ToggleFlips`, `ToggleTwiceAbsent` and `ToggleTwicePresent` |
| Favorites.ToggleFlips | frontend/src/hooks/useFavorites.ts:33-39 | toggling flips that id's membership, no other, and keeps the list free of duplicates |
| Favorites.ToggleTwiceAbsent | frontend/src/hooks/useFavorites.ts:33-39 | toggling an absent id twice restores the exact list |
| Favorites.ToggleTwicePresent | frontend/src/hooks/useFavorites.ts:33-39 | toggling a present id twice keeps the set of ids but moves that id to the end |
| Favorites.Load | frontend/src/hooks/useFavorites.ts:4-12 | a missing, empty or unparseable stored value gives the empty list |
| Favorites.ReloadRestores | frontend/src/hooks/useFavorites.ts:5-20 | the list saved under the key is the list the next load returns |
| Favorites.FavoritesStore.constructor | frontend/src/hooks/useFavorites.ts:4-20 | the list is the loaded one and storage holds its serialisation |
| Favorites.FavoritesStore.IsFavorite | frontend/src/hooks/useFavorites.ts:41 | true exactly when the id is at some position of the list |
| Favorites.FavoritesStore.Persist | frontend/src/hooks/useFavorites.ts:14-20 | storage holds the serialised current list under the key; no other entry changes |
| Favorites.FavoritesStore.AddFavorite | frontend/src/hooks/useFavorites.ts:22-27 | the list is updated by `Add` and storage mirrors it |
| Favorites.FavoritesStore.RemoveFavorite | frontend/src/hooks/useFavorites.ts:29-31 | the list is updated by `Remove` and storage mirrors it |
| Favorites.FavoritesStore.ToggleFavorite | frontend/src/hooks/useFavorites.ts:33-39 | membership of that id flips, every other id's stays, storage mirrors the list |
| Dashboard.ComputeStats | frontend/src/pages/Index.tsx:87-107 | the summary figures; its contract is `StatsOfConsistentLots` |
| Dashboard.OccupancyRate | frontend/src/pages/Index.tsx:104-107 | 0 without capacity; otherwise the exact quotient, rate × capacity = occupied × 100, a percentage when occupied is in range |
| Dashboard.StatsOfConsistentLots | frontend/src/pages/Index.tsx:88-107 | over consistent lots: the lot count, available = capacity − occupied, the rate in [0, 100] and 0 without capacity |
| Dashboard.DashboardPage.constructor | frontend/src/pages/Index.tsx:23-28 | no lots, nothing selected, no key, not loaded, not refreshing |
| Dashboard.DashboardPage.FetchLots | frontend/src/pages/Index.tsx:55-66 | a good response replaces the list wholesale and stamps the time; a failure only adds the error notice |
| Dashboard.DashboardPage.Init | frontend/src/pages/Index.tsx:31-52 | an unreachable configuration endpoint adds a notice and fetches nothing; a usable key loads the map; a missing or empty key leaves it unloaded and adds the missing-key notice; then the lots are fetched, a failure adding the fetch notice; no other notice is added |
| Dashboard.DashboardPage.BeginRefresh | frontend/src/pages/Index.tsx:77-78 | the spinner turns on |
| Dashboard.DashboardPage.CompleteRefresh | frontend/src/pages/Index.tsx:79-80 | the fetch is applied as by `FetchLots`, only a failure adds the fetch notice, and the spinner turns off |
| Dashboard.DashboardPage.TimerTick | frontend/src/pages/Index.tsx:69-75 | ticks happen only once the map is loaded, and start a refresh |
| Dashboard.DashboardPage.HandleLotClick | frontend/src/pages/Index.tsx:83-85 | the selection is toggled on the lot id |
| LegacyDashboard.UnguardedRate | src/pages/Index.tsx:37 | finite exactly when capacity is non-zero, then the exact quotient, rate × capacity = occupied × 100 and a percentage in [0, 100] when occupied is in range; NaN exactly for 0/0 |
| LegacyDashboard.OccupancyRate | src/pages/Index.tsx:30-37 | the rate of the summed lots by unguarded division; finite on every list the page holds (`RateFiniteOnTable`) |
| LegacyDashboard.RefreshKeepsShape | src/pages/Index.tsx:50-53 | one refresh keeps the table's ids, capacities and order and leaves every lot consistent |
| LegacyDashboard.RefreshManyKeepsShape | src/pages/Index.tsx:50-53 | after any number of refreshes from the table every lot still has 0 ≤ occupied ≤ total and available = total − occupied |
| LegacyDashboard.RateFiniteOnTable | src/pages/Index.tsx:37 | on any list the page can hold the unguarded rate is a finite percentage |
| LegacyDashboard.KeyAccepted | src/pages/Index.tsx:58 | the `trim()` test of the key; its contract is `KeyAcceptedIff` |
| LegacyDashboard.KeyAcceptedIff | src/pages/Index.tsx:58 | a key is accepted exactly when it has a character that is not white space |
| LegacyDashboard.LegacyDashboardPage.constructor | src/pages/Index.tsx:22-27 | the lots are the static table; nothing selected, no key, not refreshing |
| LegacyDashboard.LegacyDashboardPage.SetApiKey | src/pages/Index.tsx:105 | the key field holds the typed text |
| LegacyDashboard.LegacyDashboardPage.HandleApiKeySubmit | src/pages/Index.tsx:57-64 | an accepted key sets the flag with the success notice; otherwise only the error notice |
| LegacyDashboard.LegacyDashboardPage.HandleRefresh | src/pages/Index.tsx:50-53 | the lots become `updateParkingData` of the old lots, the time is stamped, the spinner is on, the table shape is kept |
| LegacyDashboard.LegacyDashboardPage.RefreshTimeout | src/pages/Index.tsx:54 | the spinner turns off |
| LegacyDashboard.LegacyDashboardPage.TimerTick | src/pages/Index.tsx:40-48 | ticks happen only once a key is accepted, and refresh |
| LegacyDashboard.LegacyDashboardPage.HandleLotClick | src/pages/Index.tsx:66-68 | the selection is toggled on the lot id |
| CampusCalendar.FirstToday | frontend/src/components/CampusCalendarAlert.tsx:117-119 | the found event is in the list and dated today; nothing is found exactly when no event is dated today |
| CampusCalendar.TodayEvents | frontend/src/components/CampusCalendarAlert.tsx:168-170 | holds exactly the list's events dated today |
| CampusCalendar.FutureEvents | frontend/src/components/CampusCalendarAlert.tsx:171-173 | holds exactly the list's events not dated today |
| CampusCalendar.SplitIsPartition | frontend/src/components/CampusCalendarAlert.tsx:168-173 | the two filters split the list as a multiset |
| CampusCalendar.SplitKeepsOrder | frontend/src/components/CampusCalendarAlert.tsx:168-173 | when today's events come first, the split returns the two parts in their order |
| CampusCalendar.FirstTodayIsHead | frontend/src/components/CampusCalendarAlert.tsx:116-122 | the event `find` picks is the head of the today list, and none is found exactly when that list is empty |
| CampusCalendar.Events | frontend/src/components/CampusCalendarAlert.tsx:25-112 | the pushed list; its contracts are `EventsShape`, `UpcomingAlwaysLast`, `GameDayIff`, `ClassRule` and `WeekendRule` |
| CampusCalendar.EventsShape | frontend/src/components/CampusCalendarAlert.tsx:25-112 | the list is at most two events of today followed by the two upcoming ones |
| CampusCalendar.UpcomingAlwaysLast | frontend/src/components/CampusCalendarAlert.tsx:90-112 | the list is never empty and ends with the high-impact game in five days and the medium-impact career fair tomorrow |
| CampusCalendar.SplitOfEvents | frontend/src/components/CampusCalendarAlert.tsx:164-173 | the today list is the table's today part and the upcoming list is the two future events |
| CampusCalendar.GameDayIff | frontend/src/components/CampusCalendarAlert.tsx:27-36 | a game is on today exactly on a Saturday of months 8–11, and games are of high impact |
| CampusCalendar.ClassRule | frontend/src/components/CampusCalendarAlert.tsx:38-73 | a class event exists exactly on days 1–5 at hours 6–17, with low, high, medium, low impact for 6–7, 8–10, 11–14, 15–17; at most one class event is added |
| CampusCalendar.WeekendRule | frontend/src/components/CampusCalendarAlert.tsx:75-86 | the weekend notice is present exactly on days 0 and 6 at hours 6–22 |
| CampusCalendar.FallSaturdayIsHigh | frontend/src/components/CampusCalendarAlert.tsx:116-122 | on a fall Saturday the current impact is high at every hour |
| CampusCalendar.CurrentImpact | frontend/src/components/CampusCalendarAlert.tsx:116-122 | the impact of the first event dated today; its contracts are `FallSaturdayIsHigh` and `NoCurrentImpactIff` |
| CampusCalendar.NoCurrentImpactIff | frontend/src/components/CampusCalendarAlert.tsx:116-122 | there is no current impact exactly when no row of the table fires |
| CampusCalendar.ImpactColor | frontend/src/components/CampusCalendarAlert.tsx:125-136 | the badge classes; its contracts are `ImpactColorsDistinct` and `GrayIffNoImpact` |
| CampusCalendar.ImpactColorsDistinct | frontend/src/components/CampusCalendarAlert.tsx:125-136 | the three impacts get three different colours |
| CampusCalendar.GrayIffNoImpact | frontend/src/components/CampusCalendarAlert.tsx:125-136 | the gray fallback is used exactly for text naming no impact |
| CampusCalendar.AlertTone | frontend/src/components/CampusCalendarAlert.tsx:180-186 | the blue tone is used exactly when the impact is neither high nor medium |
| CampusCalendar.CampusCalendarAlert.constructor | frontend/src/components/CampusCalendarAlert.tsx:16-17 | no events and no current impact |
| CampusCalendar.CampusCalendarAlert.Mount | frontend/src/components/CampusCalendarAlert.tsx:19-123 | the pushes build exactly the table's event list; the current impact is set only when an event is dated today |
| CampusCalendar.CampusCalendarAlert.MountedView | frontend/src/components/CampusCalendarAlert.tsx:164-211 | after mounting the card renders, the alert shows exactly when there is a current impact, its badge carries that impact, and the upcoming card lists the two future events |
| AccessibilityScore.Lookup | frontend/src/components/AccessibilityScoreCard.tsx:56-63 | a known id gets its table record and an unknown id the default one; every record has percentages and notes |
| AccessibilityScore.OverallScore | frontend/src/components/AccessibilityScoreCard.tsx:66-72 | the score is the integer nearest the weighted sum, halves rounding up |
| AccessibilityScore.ScoreIsPercentage | frontend/src/components/AccessibilityScoreCard.tsx:66-72 | percentages in give a score in [0, 100] |
| AccessibilityScore.ScoreMonotone | frontend/src/components/AccessibilityScoreCard.tsx:66-72 | a record no worse in any respect never scores lower |
| AccessibilityScore.KnownScores | frontend/src/components/AccessibilityScoreCard.tsx:28-72 | the three listed lots score 92, 99 and 63, any other lot 60 |
| AccessibilityScore.ScoreColor | frontend/src/components/AccessibilityScoreCard.tsx:74-79 | the score's colour classes; its contract is `LabelAgreesWithColor` |
| AccessibilityScore.ScoreLabel | frontend/src/components/AccessibilityScoreCard.tsx:81-86 | the score's label; its contracts are `LabelAgreesWithColor` and `LabelMonotone` |
| AccessibilityScore.LabelAgreesWithColor | frontend/src/components/AccessibilityScoreCard.tsx:74-86 | two scores share a label exactly when they share a colour |
| AccessibilityScore.LabelMonotone | frontend/src/components/AccessibilityScoreCard.tsx:81-86 | a higher score never gets a lower label; Excellent from 90, Very Good or better from 75, Good or better from 60 |
| AccessibilityScore.DescriptionRank | frontend/src/components/AccessibilityScoreCard.tsx:93-105 | a three-way split: best exactly at the high threshold, worst exactly below the low one |
| AccessibilityScore.DistanceDescription | frontend/src/components/AccessibilityScoreCard.tsx:93 | the distance text; its contract is `DescriptionsFollowThresholds` |
| AccessibilityScore.DescriptionsFollowThresholds | frontend/src/components/AccessibilityScoreCard.tsx:88-107 | each metric's text is the one its thresholds rank, and a higher distance score never reads worse |
| LicensePlate.DetectedText | backend/routes/license_plate.py:33 | the upper-cased joined fragments; its contract is `FragmentWithKeyword` |
| LicensePlate.IsDisabled | backend/routes/license_plate.py:36-38 | the keyword test; its contracts are `AnyKeyword`, `FragmentWithKeyword` and `NoDOrHNotDisabled` |
| LicensePlate.AnyKeyword | backend/routes/license_plate.py:37-38 | true exactly when some keyword of the list occurs in the text |
| LicensePlate.FragmentWithKeyword | backend/routes/license_plate.py:33-38 | a fragment holding a keyword in any letter case marks the plate as disabled |
| LicensePlate.NoDOrHNotDisabled | backend/routes/license_plate.py:37-38 | text with neither D nor H is never flagged |
| LicensePlate.CountAfterArrival | backend/routes/license_plate.py:49-50 | occupied goes up by one with no cap; the reported free count is never negative, is 0 exactly when the lot is full, and otherwise completes the capacity |
| LicensePlate.PlateService.UploadPlate | backend/routes/license_plate.py:8-65 | 501 without OCR libraries, 500 when OCR or the write fails, no lookup for a plate that is not disabled, 404 for a missing lot, otherwise one more occupied spot in that lot and the counts reported |
| PredictiveAvailability.PatternFor | frontend/src/components/PredictiveAvailability.tsx:27-32 | a known id gets its table pattern; any other the default, whose trend is medium |
| PredictiveAvailability.PeakHoursIff | frontend/src/components/PredictiveAvailability.tsx:34-35 | peak time is exactly the hours 8, 9, 10, 12, 13 and 14 |
| PredictiveAvailability.IsPeakTime | frontend/src/components/PredictiveAvailability.tsx:34-35 | the peak-hour test; its contract is `PeakHoursIff` |
| PredictiveAvailability.Card | frontend/src/components/PredictiveAvailability.tsx:27-67 | the card's two texts are its lot's pattern texts (table entry or default); the warning shows exactly at hours 8, 9, 10, 12, 13 and 14 |
| PredictiveAvailability.WarningIgnoresLot | frontend/src/components/PredictiveAvailability.tsx:28-67 | any two lots get the warning at the same hours, while their peak texts agree exactly when their patterns' do |
| PredictiveAvailability.DifferentPeaksSameWarning | frontend/src/components/PredictiveAvailability.tsx:10-67 | 12th Avenue and the medical centre show different peak texts but the same warning at every hour |
| PredictiveAvailability.MedicalCenterPeakNotWarned | frontend/src/components/PredictiveAvailability.tsx:15-35 | the medical centre's pattern names 7–11 AM, yet no warning shows at 7 or 11 |
| WeatherAlert.ShouldShowAlert | frontend/src/components/WeatherAlert.tsx:34 | cold, rainy or snowy weather; its contracts are `CloudIconMeansCold` and `WeatherAlertWidget.View` |
| WeatherAlert.WeatherIcon | frontend/src/components/WeatherAlert.tsx:38-42 | snow exactly when snow is mentioned, rain when rain but not snow is, a cloud otherwise |
| WeatherAlert.CloudIconMeansCold | frontend/src/components/WeatherAlert.tsx:34-42 | a shown advisory with the cloud icon was triggered by cold alone |
| WeatherAlert.Message | frontend/src/components/WeatherAlert.tsx:50 | a non-empty alert text is the message |
| WeatherAlert.MessageFallbackShape | frontend/src/components/WeatherAlert.tsx:50 | without alert text the message is the temperature, a degree sign and F, then the condition, with no stray character |
| WeatherAlert.MessageAsWrittenShowsMojibake | frontend/src/components/WeatherAlert.tsx:50 | the source's fallback message carries an extra `Â` right after the number |
| WeatherAlert.MessageAsWritten | frontend/src/components/WeatherAlert.tsx:50 | the message as the source spells it; its contracts are `MessageAsWrittenShowsMojibake` and `MessagesAgreeWithAlert` |
| WeatherAlert.MessagesAgreeWithAlert | frontend/src/components/WeatherAlert.tsx:50 | with alert text both spellings give that text |
| WeatherAlert.WeatherAlertWidget.constructor | frontend/src/components/WeatherAlert.tsx:12-13 | no data, loading |
| WeatherAlert.WeatherAlertWidget.TimerFires | frontend/src/components/WeatherAlert.tsx:15-29 | the simulated data arrives and loading ends |
| WeatherAlert.WeatherAlertWidget.View | frontend/src/components/WeatherAlert.tsx:31-52 | an advisory shows exactly when loaded, with data, and the weather is cold, rainy or snowy; it carries the icon and the corrected message (see Findings), which matches the source's whenever alert text is present |
| WeatherAlert.MockShowsColdAdvisory | frontend/src/components/WeatherAlert.tsx:18-34 | the simulated data shows the advisory with the cloud icon and its alert text |
| ParkingBuddy.OfferedIdsExact | frontend/src/components/ParkingBuddySystem.tsx:20-25 | the offered ids are exactly find-car, loading, navigation and other, distinct and non-empty |
| ParkingBuddy.ParkingBuddyForm.constructor | frontend/src/components/ParkingBuddySystem.tsx:16-18 | empty type and details, not submitting |
| ParkingBuddy.ParkingBuddyForm.ChooseType | frontend/src/components/ParkingBuddySystem.tsx:62 | the chosen id becomes the request type |
| ParkingBuddy.ParkingBuddyForm.SetDetails | frontend/src/components/ParkingBuddySystem.tsx:92 | the details hold the typed text |
| ParkingBuddy.ParkingBuddyForm.HandleSubmit | frontend/src/components/ParkingBuddySystem.tsx:27-50 | without a type only the error notice and no state change; with one, submitting with one completion scheduled; from an enabled button the form stays valid and the button disabled |
| ParkingBuddy.ParkingBuddyForm.Complete | frontend/src/components/ParkingBuddySystem.tsx:36-43 | the confirmation notice, type and details cleared, submitting off |
| ParkingBuddy.ChooseAndSubmit | frontend/src/components/ParkingBuddySystem.tsx:105-107 | choosing any offered type enables the button, and submitting disables it until completion |
| ThemeToggle.NextTheme | src/components/ThemeToggle.tsx:22 | the new theme is dark exactly when the old one was light, and is always light or dark |
| ThemeToggle.NextThemeTwice | src/components/ThemeToggle.tsx:22 | from light or dark two toggles restore the theme |
| ThemeToggle.ToggleKeepsSync | src/components/ThemeToggle.tsx:21-26 | from light or dark, flipping the class keeps "class present exactly when dark" |
| ThemeToggle.UnknownSavedThemeBreaksSync | src/components/ThemeToggle.tsx:10-25 | a stored "blue" starts in step and the first toggle puts theme and class out of step |
| ThemeToggle.ThemeSwitch.constructor | src/components/ThemeToggle.tsx:6 | the theme starts light |
| ThemeToggle.ThemeSwitch.Mount | src/components/ThemeToggle.tsx:8-19 | a non-empty stored theme wins and sets the class by whether it is dark; else a dark preference selects dark; else nothing changes; a fresh light page ends in step |
| ThemeToggle.ThemeSwitch.Toggle | src/components/ThemeToggle.tsx:21-26 | the theme steps, is stored under "theme", the class flips, and light/dark stay in step |
| ThemeToggle.ThemeSwitch.ToggleTwice | src/components/ThemeToggle.tsx:21-26 | two toggles from light or dark restore theme and class and leave the theme stored |

## Left out

- Network access, `res.json()` and the order of the asynchronous steps: each fetch's outcome is a method argument, and the `await` inside `handleRefresh` splits it into a begin and a complete step.
- Timers: each `setTimeout` / `setInterval` callback is a step method; their timing and cancellation are not modelled.
- Randomness: the per-lot change of `updateParkingData` is an input in [-2, 2].
- The browser speech engine (construction, start, stop, cleanup) and the text-to-speech hook: foreign APIs whose events are method calls here.
- Rendering: maps, tables, cards and icons, including the availability badges that classify by floating-point percentages and `getEventIcon` of the calendar, which only picks an icon.
- OCR and image decoding in the plate route: the fragment list, or an OCR failure, is an input.
- Backend persistence and routing: the database is a map of lot rows. A write that reports no row becomes a 500 response; the real client's `.single()` raising on a missing row (which would also end in a 500 rather than a 404) is not modelled.
- The emergency-contact links and the voice-control button: wiring without rules.
- Dates and locale: day of week, hour and month are inputs, and event dates are day offsets from today. The today/upcoming split compares against the date at render time; the model takes it to be the mount date.
- `toLowerCase` and `upper()` are modelled on ASCII letters only; both sources apply full Unicode case mapping.
- JSON: only arrays of strings are serialised and parsed; stored text holding any other JSON value, or any `\u` escape in the surrogate range D800–DFFF (a lone one or a valid pair such as `\ud83d\ude00`, which `JSON.parse` accepts), is treated as unparseable. `Stringify` never writes such an escape, so the round trip is unaffected.
- Dashboard.ComputeStats: lots fetched from the backend are taken to carry all three counts as integers; a missing or non-numeric count, which the `|| 0` fallbacks count as 0, is not modelled.
- AccessibilityScore.OverallScore: computed with exact rational weights; the source's floating-point products could fall on the other side of a .5 tie for inputs other than the table's, and a lot id naming a built-in object property (such as "constructor") would find no record fields at all.
- Dashboard.OccupancyRate, LegacyDashboard.UnguardedRate: the rate is the exact real quotient (occupied / capacity) × 100; the source divides and multiplies IEEE doubles, whose result can differ from it in the last place (11 of 20 gives 55.00000000000001), so the identity rate × capacity = occupied × 100 holds for the exact value only. Finiteness, NaN for 0/0 and the [0, 100] bound are not affected by the rounding.
- PredictiveAvailability.PatternFor: a lot id naming an inherited object property (such as "constructor" or "toString") makes the source's `historicalPatterns[lotId]` a truthy function, so the card shows undefined texts rather than the default pattern; the model gives such ids the default.
- WeatherAlert: temperatures are whole degrees; a fractional temperature's decimal rendering is not modelled.
- Failures of the browser's storage (`setItem` throwing) are not modelled; the favourites store always persists.
- The re-creation of a recognition session whenever the `onCommand` callback changes identity is not modelled; a session is active exactly while both flags hold.
- Toast descriptions (the second line of the success notice of the help request) are not modelled; a notice is a level and a message.

## Findings

| source | as written | input that shows it | evidently intended | confidence | as-written member | corrected member |
|---|---|---|---|---|---|---|
| frontend/src/components/WeatherAlert.tsx:50 | the fallback message's unit is the two characters `Â°` followed by `F` (the UTF-8 bytes of a degree sign read as Latin-1) | weather with no alert text, e.g. 45 degrees and "rain": the message reads `45Â°F - rain` | `45°F - rain`, a degree sign and F | not executed | WeatherAlert.MessageAsWrittenShowsMojibake | WeatherAlert.MessageFallbackShape |
