# Ready, Jet Set, Go — a Dafny model of the planner's deterministic core

Ready, Jet Set, Go is a jet-lag planner. A traveller enters flights, either by
flight number and date for an automatic lookup or keyed in by hand. They check the
itinerary on a confirmation screen that warns about broken connections, and fill in
a bio-profile. They then receive a phased schedule (pre-flight, in-flight,
post-flight) with product recommendations and reading links. A separate small page
(`flight-planner/app.js`) picks an in-flight sleep block from a fixed rule table.

This project models the parts of that system that are code rather than prompt text.
There is one Dafny module per source file:

| module | source |
|---|---|
| `Types` | the shared records and closed enumerations, with their wire strings (`types.ts`) |
| `Lists` | the list operations the components are built from (`filter`, a selective `map`, `flatMap`, lists keyed by id) |
| `Itinerary` | the confirmation screen: airport-code extraction, the continuity check (a loop, proved equal to a specification function), the confirm label, editing a leg |
| `FlightForm` | the entry form: a class whose handlers replace `mode`, `flights` and `manualFlights`, plus the submit payloads |
| `Wizard` | the four-step wizard: a class whose handlers update the step, data, banner, loading and toggle state |
| `Preferences` | the bio-profile form: a class holding `prefs`, the default profile, the option lists, the light-sensitivity slider |
| `Planner` | `generatePlan` of the stand-alone planner page and its decision table |
| `Timeline` | the schedule view: phase sections, their visibility, icons and colours |
| `Toolkit` | the recommendations view: card flattening, the affiliate button, section visibility |
| `RestService` | the proxy-based service: grounding sources, reply text default, id re-mapping, the trip summary, and how both requests report failure |
| `SdkService` | the SDK-based service: the API-key guard, the extra abort checks, and its agreement with the proxy variant |

Several things the browser or the network decides become parameters:

- Times are read through a `DateParser`: text goes to an instant and the local hour, or to nothing where JavaScript would produce an Invalid Date. NaN comparisons are false, and the model says so explicitly.
- A request to the planning service is modelled by the value it settles with. That is the reply, a rejection, or the state of the abort signal at each point where the code reads it.
- JSON decoding is a decoder parameter.
- `Date.now()` and `Math.random()` ids are passed in as arguments.

## Model

| member | source | states |
|---|---|---|
| Types.ParseAgeGroup | _site/readyjetsetgo/types.ts:24 | a label is read as an age group iff it is one of the five labels, and the group read back renders as that label |
| Types.AgeGroupNameRoundTrip | _site/readyjetsetgo/types.ts:24 | reading an age group's label gives the age group back |
| Types.ParseChronotype | _site/readyjetsetgo/types.ts:25 | a label is read as a chronotype iff it is one of the three ids, and it renders back as that id |
| Types.ChronotypeNameRoundTrip | _site/readyjetsetgo/types.ts:25 | reading a chronotype's id gives the chronotype back |
| Types.PreferenceNamesInjective | _site/readyjetsetgo/types.ts:23-30 | within each of the six profile enumerations, distinct members have distinct wire strings |
| Types.ParseEventType | _site/readyjetsetgo/types.ts:32-41 | a string is an event type iff it is one of the eight enum values, and it renders back as that string |
| Types.EventTypesExactlyEight | _site/readyjetsetgo/types.ts:32-41 | the enumeration lists exactly eight members, every member is listed, their strings are pairwise distinct, and each string reads back as its member |
| Types.ParsePhase | _site/readyjetsetgo/types.ts:48 | a phase is exactly one of PRE, FLIGHT and POST, and it round-trips |
| Types.ParseDirection | _site/readyjetsetgo/types.ts:71 | a direction is exactly one of EAST, WEST and NORTH_SOUTH, and it round-trips |
| Itinerary.AirportCode | _site/readyjetsetgo/components/FlightConfirmation.tsx:18-21 | a code, when found, is three characters long |
| Itinerary.FindCode | _site/readyjetsetgo/components/FlightConfirmation.tsx:19 | a position found from `from` holds a parenthesised three-capital code with no earlier one; nothing found means no code anywhere from `from` |
| Itinerary.AirportCodeSpec | _site/readyjetsetgo/components/FlightConfirmation.tsx:18-21 | a code is returned iff some `(XYZ)` with three capitals occurs; it is three capitals, taken from the leftmost occurrence |
| Itinerary.FirstMatchIsReported | _site/readyjetsetgo/components/FlightConfirmation.tsx:18-21 | when position k holds the first occurrence, the result is exactly the three letters at k |
| Itinerary.AirportCodeExamples | _site/readyjetsetgo/components/FlightConfirmation.tsx:19 | "London (LHR)" and "(LHR) then (JFK)" give LHR |
| Itinerary.AirportCodeRejects | _site/readyjetsetgo/components/FlightConfirmation.tsx:19 | lower-case, two-letter, four-letter and code-less text give nothing |
| Itinerary.Message | _site/readyjetsetgo/components/FlightConfirmation.tsx:34-42 | a connection issue's text starts "Connection Issue: ", a location mismatch's starts "Location Mismatch: " |
| Itinerary.DepartsBeforeArrival | _site/readyjetsetgo/components/FlightConfirmation.tsx:29-35 | an unparsable arrival or departure never reports a connection issue; a reported one has distinct instants |
| Itinerary.CodesDiffer | _site/readyjetsetgo/components/FlightConfirmation.tsx:38-43 | a reported mismatch implies the arrival and next departure airports differ as text |
| Itinerary.PairWarnings | _site/readyjetsetgo/components/FlightConfirmation.tsx:29-43 | at most two warnings per pair; none iff neither condition holds |
| Itinerary.Warnings | _site/readyjetsetgo/components/FlightConfirmation.tsx:23-47 | an itinerary of zero or one leg has no warnings |
| Itinerary.Messages | _site/readyjetsetgo/components/FlightConfirmation.tsx:34-42 | the texts shown are the warnings' messages, one for one and in order |
| Itinerary.PairWarningsSpec | _site/readyjetsetgo/components/FlightConfirmation.tsx:29-43 | a pair yields a connection issue iff the next departure is strictly before the current arrival, and a location mismatch iff both codes exist and differ; exactly one warning per condition that holds, so none is repeated; time before location |
| Itinerary.SameInstantIsNoConnectionIssue | _site/readyjetsetgo/components/FlightConfirmation.tsx:33 | equal instants give no connection warning |
| Itinerary.WarningsBound | _site/readyjetsetgo/components/FlightConfirmation.tsx:24-46 | n legs give at most 2·(n−1) warnings |
| Itinerary.WarningsStep | _site/readyjetsetgo/components/FlightConfirmation.tsx:26-44 | extending the itinerary by one leg appends exactly the new pair's warnings, so they are ordered pair by pair |
| Itinerary.WarningsEmptyIff | _site/readyjetsetgo/components/FlightConfirmation.tsx:24-46 | there are no warnings iff no adjacent pair is inconsistent; only adjacent pairs matter |
| Itinerary.WarningsConcat | _site/readyjetsetgo/components/FlightConfirmation.tsx:24-46 | the warnings of a joined itinerary are those of each part plus those of the pair at the seam |
| Itinerary.CheckContinuity | _site/readyjetsetgo/components/FlightConfirmation.tsx:23-47 | the loop pushing warnings computes exactly the specification `Warnings` |
| Itinerary.ConfirmLabel | _site/readyjetsetgo/components/FlightConfirmation.tsx:217 | "Ignore Warnings & Confirm" iff there is a warning, "Yes, this is correct" iff there is none |
| Itinerary.ConfirmLabelReflectsItinerary | _site/readyjetsetgo/components/FlightConfirmation.tsx:217 | the button asks to ignore warnings iff some adjacent pair is inconsistent |
| Itinerary.WithField | _site/readyjetsetgo/components/FlightConfirmation.tsx:50 | the named field takes the value and every other field keeps its value |
| Itinerary.UpdateLeg | _site/readyjetsetgo/components/FlightConfirmation.tsx:49-51 | same length; legs with another id unchanged; legs with the id change in the named field only |
| Itinerary.UpdateWithSameValueIsIdentity | _site/readyjetsetgo/components/FlightConfirmation.tsx:49-51 | writing to the legs with the id the value their field already holds leaves the itinerary unchanged |
| FlightForm.Toggled | app-readyjetsetgo/components/FlightForm.tsx:322 | the toggle always switches to the other mode |
| FlightForm.ToggleTwiceIsIdentity | app-readyjetsetgo/components/FlightForm.tsx:322 | toggling twice returns to the starting mode |
| FlightForm.SetAutoField | app-readyjetsetgo/components/FlightForm.tsx:47 | an edit sets the named field of a row, keeps the other field and the id |
| FlightForm.SetManualField | app-readyjetsetgo/components/FlightForm.tsx:65 | an edit sets the named field of a manual row and keeps every other field |
| FlightForm.RemoveRow | app-readyjetsetgo/components/FlightForm.tsx:40-44 | a list of at most one row is untouched; otherwise exactly the rows with another id remain, taken from the list |
| FlightForm.RemoveRowKeepsOne | app-readyjetsetgo/components/FlightForm.tsx:40-44 | with unique ids, removal drops one row if the id is present and none otherwise, never empties the list, and keeps ids unique |
| FlightForm.DuplicateIdsEmptyTheList | app-readyjetsetgo/components/FlightForm.tsx:40-44 | two rows sharing an id are both removed, leaving an empty list |
| FlightForm.UpdateAutoRows | app-readyjetsetgo/components/FlightForm.tsx:46-48 | same length; other rows unchanged; matching rows change in the named field only and keep their id |
| FlightForm.UpdateManualRows | app-readyjetsetgo/components/FlightForm.tsx:64-66 | same length; other rows unchanged; matching rows change in the named field only |
| FlightForm.UpdateAutoKeepsIds | app-readyjetsetgo/components/FlightForm.tsx:46-48 | editing never makes two rows share an id |
| FlightForm.UpdateManualKeepsIds | app-readyjetsetgo/components/FlightForm.tsx:64-66 | editing a field other than the id never makes two manual rows share an id |
| FlightForm.AllNumbered | app-readyjetsetgo/components/FlightForm.tsx:78 | the empty list passes, and a list that passes has every prefix passing |
| FlightForm.AutoPayload | app-readyjetsetgo/components/FlightForm.tsx:79-83 | one input per row, in order, with id, flight number and date copied |
| FlightForm.AutoPayloadRoundTrip | app-readyjetsetgo/components/FlightForm.tsx:79-83 | the rows can be read back from the request unchanged |
| FlightForm.ManualPayload | app-readyjetsetgo/components/FlightForm.tsx:88-97 | one leg per row, in order, fields copied; an empty number becomes 'N/A'; duration 'Manual Entry'; airline 'Manual' |
| FlightForm.ManualPayloadNumbered | app-readyjetsetgo/components/FlightForm.tsx:90 | every submitted manual leg has a non-empty flight number |
| FlightForm.Form.constructor | app-readyjetsetgo/components/FlightForm.tsx:13-30 | automatic mode, each list holding one blank row with id "1" |
| FlightForm.Form.ToggleMode | app-readyjetsetgo/components/FlightForm.tsx:322 | mode switches; both lists unchanged |
| FlightForm.Form.AddFlight | app-readyjetsetgo/components/FlightForm.tsx:33-38 | exactly one blank row appended; the rest of the form unchanged; with a fresh id the form stays well formed |
| FlightForm.Form.RemoveFlight | app-readyjetsetgo/components/FlightForm.tsx:40-44 | the list becomes `RemoveRow` of the old one; nothing else changes; a well-formed form stays well formed, never empty |
| FlightForm.Form.UpdateFlight | app-readyjetsetgo/components/FlightForm.tsx:46-48 | the list becomes `UpdateAutoRows` of the old one; nothing else changes; well-formedness kept |
| FlightForm.Form.AddManualFlight | app-readyjetsetgo/components/FlightForm.tsx:51-56 | exactly one blank manual row appended; the rest unchanged; a fresh id keeps the form well formed |
| FlightForm.Form.RemoveManualFlight | app-readyjetsetgo/components/FlightForm.tsx:58-62 | the manual list becomes `RemoveRow` of the old one; nothing else changes; well-formedness kept |
| FlightForm.Form.UpdateManualFlight | app-readyjetsetgo/components/FlightForm.tsx:64-66 | the manual list becomes `UpdateManualRows` of the old one; nothing else changes; well-formedness kept unless the id is edited |
| FlightForm.Form.HandleSubmit | app-readyjetsetgo/components/FlightForm.tsx:68-100 | automatic mode: an empty first date alerts, and the lookup is requested iff every row has a number, else nothing is sent; an empty list throws; manual mode submits `ManualPayload`; a well-formed form never throws |
| Wizard.SegmentHighlighted | app-readyjetsetgo/App.tsx:150 | the first segment is always highlighted, no segment past the last |
| Wizard.BackVisible | app-readyjetsetgo/App.tsx:158 | the back button is shown iff the step is not the first |
| Wizard.StepIndex | app-readyjetsetgo/App.tsx:150 | the index is the step's first position in the segment list |
| Wizard.HighlightedPrefix | app-readyjetsetgo/App.tsx:146-153 | segment i is highlighted iff i ≤ index(step); the first always is, and the one after the step's is not |
| Wizard.HighlightGrows | app-readyjetsetgo/App.tsx:146-153 | a later step highlights every segment an earlier step does |
| Wizard.PreviousStep | app-readyjetsetgo/App.tsx:117-121 | back stays on input, and otherwise goes exactly one step towards the start |
| Wizard.BackButtonMovesIffVisible | app-readyjetsetgo/App.tsx:158 | the back button is shown iff going back changes the step |
| Wizard.ErrorText | app-readyjetsetgo/App.tsx:57-62 | no banner iff the request was aborted; otherwise the message, or the fallback when it is empty |
| Wizard.SearchErrorText | app-readyjetsetgo/App.tsx:50-62 | no banner for found flights; "No flight information found…" for an empty result; otherwise as `ErrorText` with "Failed to find flights." |
| Wizard.SearchAdvancesIffFlightsFound | app-readyjetsetgo/App.tsx:50-62 | there is no banner iff flights were found or the search was aborted; every banner is non-empty |
| Wizard.App.constructor | app-readyjetsetgo/App.tsx:12-29 | input step, no data, no plan, toggles on, not loading, no error |
| Wizard.App.HandleStop | app-readyjetsetgo/App.tsx:31-37 | the controller is dropped and loading ends; nothing else changes |
| Wizard.App.HandleFlightSearch | app-readyjetsetgo/App.tsx:40-67 | with flights: store flights and sources and go to confirm; otherwise step and data unchanged; banner as `SearchErrorText`; always ends not loading with no controller; keeps `Valid` |
| Wizard.App.HandleManualEntry | app-readyjetsetgo/App.tsx:69-74 | stores the flights, clears sources and error, goes to confirm |
| Wizard.App.HandleFlightConfirmation | app-readyjetsetgo/App.tsx:76-79 | replaces the flights and goes to preferences; nothing else changes |
| Wizard.App.HandleGeneratePlan | app-readyjetsetgo/App.tsx:81-104 | success stores the plan and goes to result; failure keeps step and plan with banner `ErrorText(…, "Failed to generate plan.")`; always ends not loading; keeps `Valid` |
| Wizard.App.ResetApp | app-readyjetsetgo/App.tsx:106-115 | input step, no flights, no plan, no error, toggles on, not loading; sources kept |
| Wizard.App.GoBack | app-readyjetsetgo/App.tsx:117-121 | the step becomes `PreviousStep`; nothing else changes |
| Wizard.App.EditDetails | app-readyjetsetgo/App.tsx:212 | "Edit Details" goes to confirm; nothing else changes |
| Wizard.App.SetShowPreFlight | app-readyjetsetgo/App.tsx:236 | sets that toggle only |
| Wizard.App.SetShowPostFlight | app-readyjetsetgo/App.tsx:251 | sets that toggle only |
| Wizard.App.SetShowExplanation | app-readyjetsetgo/App.tsx:266 | sets that toggle only |
| Wizard.CompleteJourney | app-readyjetsetgo/App.tsx:40-104 | from a fresh wizard, a search that finds flights, a confirmation and a generated plan reach the result step with that plan, no banner, and a valid state |
| Preferences.DefaultsOnTheWire | _site/readyjetsetgo/components/PreferencesForm.tsx:12-19 | the defaults are 30-50, balanced, necessary, none, natural, normal |
| Preferences.AgeChoicesAreTheGroups | _site/readyjetsetgo/components/PreferencesForm.tsx:87 | five distinct buttons, each an age group, covering every group |
| Preferences.ChronotypeChoicesAreTheTypes | _site/readyjetsetgo/components/PreferencesForm.tsx:111-115 | three distinct ids, each a chronotype, covering every chronotype |
| Preferences.SliderPosition | _site/readyjetsetgo/components/PreferencesForm.tsx:210 | a position in 0..2; 0 iff low, 2 iff high, 1 otherwise |
| Preferences.SliderLevel | _site/readyjetsetgo/components/PreferencesForm.tsx:212-214 | position 0 iff low, position 2 iff high |
| Preferences.SliderLevelOfPosition | _site/readyjetsetgo/components/PreferencesForm.tsx:210-214 | decode(encode(s)) = s |
| Preferences.SliderPositionOfLevel | _site/readyjetsetgo/components/PreferencesForm.tsx:210-214 | encode(decode(v)) = v for v in 0..2 |
| Preferences.PreferencesForm.constructor | _site/readyjetsetgo/components/PreferencesForm.tsx:12-19 | the form opens with the default profile |
| Preferences.PreferencesForm.SelectAgeGroup | _site/readyjetsetgo/components/PreferencesForm.tsx:91 | only the age group changes |
| Preferences.PreferencesForm.SelectChronotype | _site/readyjetsetgo/components/PreferencesForm.tsx:119 | only the chronotype changes |
| Preferences.PreferencesForm.SelectCaffeine | _site/readyjetsetgo/components/PreferencesForm.tsx:28 | only the caffeine choice changes |
| Preferences.PreferencesForm.SelectAlcohol | _site/readyjetsetgo/components/PreferencesForm.tsx:43 | only the alcohol choice changes |
| Preferences.PreferencesForm.SelectMelatonin | _site/readyjetsetgo/components/PreferencesForm.tsx:58 | only the melatonin choice changes |
| Preferences.PreferencesForm.SlideLightSensitivity | _site/readyjetsetgo/components/PreferencesForm.tsx:211-215 | only the light sensitivity changes, and the slider then shows position v |
| Preferences.PreferencesForm.Submit | _site/readyjetsetgo/components/PreferencesForm.tsx:21-24 | the current profile is handed over unchanged |
| Planner.ToUpper | flight-planner/app.js:14-15 | same length, letter by letter upper-cased, no lower-case letter left |
| Planner.ToUpperIdempotent | flight-planner/app.js:14-15 | upper-casing twice is upper-casing once |
| Planner.KnownAirport | flight-planner/app.js:2-9 | an accepted code is three letters long |
| Planner.LetterCaseDoesNotMatter | flight-planner/app.js:2-9 | lhr, Jfk and DXB are accepted |
| Planner.UnlistedCodesRejected | flight-planner/app.js:24-27 | CDG and the empty code are not accepted |
| Planner.LongHaul | flight-planner/app.js:32-39 | a long flight has both times parsed and arrives after it departs |
| Planner.NightArrival | flight-planner/app.js:34-40 | for an hour of the day, night iff the hour is outside 6..17 |
| Planner.MakeBlock | flight-planner/app.js:55-57 | the block holds its four arguments unchanged |
| Planner.GeneratePlan | flight-planner/app.js:13-53 | any empty field alerts "Please fill in all flight details."; otherwise an unknown code alerts; a timeline is produced iff all fields are filled and both codes are known, and it is exactly: the long-night sleep, mid-flight nap or short nap by the decision table, then Eat, then Wake |
| Planner.FirstBlockIsSleepKind | flight-planner/app.js:39-47 | whichever branch is taken, the first block is of the sleep kind |
| Planner.Boundaries | flight-planner/app.js:39-40 | exactly 7 h is long, 1 ms less is not, a negative duration or an unparsable time is short; hours 5 and 18 are night, 6 and 17 are not |
| Timeline.PhaseEvents | readyjetsetgo/components/Timeline.tsx:42-44 | a section is never longer than the schedule |
| Timeline.PhaseEventsExact | readyjetsetgo/components/Timeline.tsx:42-44 | a section holds only events of its phase, taken from the schedule, and holds every event of that phase |
| Timeline.PhaseEventsAppend | readyjetsetgo/components/Timeline.tsx:42-44 | the sections of a concatenated schedule are the concatenated sections, so relative order is kept |
| Timeline.SinglePhaseScheduleKeptWhole | readyjetsetgo/components/Timeline.tsx:42-44 | a schedule of one phase appears whole and in order in that section |
| Timeline.SectionsMultisetCons | readyjetsetgo/components/Timeline.tsx:42-44 | the first event lands in exactly one section |
| Timeline.SectionsPartitionSchedule | readyjetsetgo/components/Timeline.tsx:42-44 | the three sections together hold each event exactly as often as the schedule does |
| Timeline.SectionLengthsAddUp | readyjetsetgo/components/Timeline.tsx:42-44 | the section lengths sum to the schedule's length |
| Timeline.PhaseEventsEmptyIff | readyjetsetgo/components/Timeline.tsx:42-44 | a section is non-empty iff some event has its phase |
| Timeline.PreSectionShown | readyjetsetgo/components/Timeline.tsx:107 | the pre-flight section is drawn iff its toggle is on and some event is pre-flight |
| Timeline.PostSectionShown | readyjetsetgo/components/Timeline.tsx:123 | the post-flight section is drawn iff its toggle is on and some event is post-flight |
| Timeline.SectionBodyOf | readyjetsetgo/components/Timeline.tsx:53-54 | the placeholder "No events generated for this phase." iff there are no events, else the events |
| Timeline.FlightSectionPlaceholderIff | readyjetsetgo/components/Timeline.tsx:116-121 | the always-drawn flight section shows the placeholder iff no event is in flight |
| Timeline.ExplanationShown | readyjetsetgo/components/Timeline.tsx:79 | the note is shown iff the toggle is on and the note is present and non-empty |
| Timeline.IconFor | readyjetsetgo/components/Timeline.tsx:14-26 | every event type has an icon and the fallback shield is never used |
| Timeline.IconsDistinct | readyjetsetgo/components/Timeline.tsx:14-26 | distinct event types get distinct icons |
| Timeline.ColorFor | readyjetsetgo/components/Timeline.tsx:28-39 | the default slate colour is used iff the type is ACTIVITY |
| Toolkit.CategoryCards | app-readyjetsetgo/components/Recommendations.tsx:26 | one card per item, in order, each labelled with the category |
| Toolkit.CardGroups | app-readyjetsetgo/components/Recommendations.tsx:26 | one group per category, group i holding exactly category i's cards |
| Toolkit.Cards | app-readyjetsetgo/components/Recommendations.tsx:26 | the number of cards is the total number of items |
| Toolkit.CardAt | app-readyjetsetgo/components/Recommendations.tsx:26-35 | item j of category i is the card after all earlier categories' items, labelled with category i |
| Toolkit.CardsComeFromCategories | app-readyjetsetgo/components/Recommendations.tsx:26-35 | every card is some category's item labelled with that category |
| Toolkit.AffiliateButtonShown | app-readyjetsetgo/components/Recommendations.tsx:40 | the button is shown iff the placeholder flag is present and true |
| Toolkit.RecommendationsOf | app-readyjetsetgo/App.tsx:285 | the plan's recommendations, or none when absent |
| Toolkit.ToolkitShownWithoutCards | app-readyjetsetgo/components/Recommendations.tsx:15 | the toolkit is drawn for a category without items, with no cards, and not drawn for a plan without recommendations |
| Toolkit.ScienceLinksShown | app-readyjetsetgo/components/Recommendations.tsx:53 | the reading list is drawn iff links are present and non-empty |
| RestService.GroundedSources | _site/readyjetsetgo/services/geminiService.ts:78-90 | no more sources than chunks, each with a non-empty title and url |
| RestService.GroundedSourcesAreCited | _site/readyjetsetgo/services/geminiService.ts:78-90 | the sources equal "keep the chunks with uri and title, then map each to {title, url}" |
| RestService.CitedSourcesAppendOne | _site/readyjetsetgo/services/geminiService.ts:82-89 | one more chunk adds its source at the end iff it is citable |
| RestService.GroundedSourcesWellFormed | _site/readyjetsetgo/services/geminiService.ts:78-90 | no more sources than chunks; each has a title and url and comes from a citable chunk |
| RestService.ExtractSources | _site/readyjetsetgo/services/geminiService.ts:78-90 | the `forEach` loop yields exactly `GroundedSources`, and nothing without chunks |
| RestService.ResponseText | _site/readyjetsetgo/services/geminiService.ts:75 | the text when present and non-empty, else "{}" |
| RestService.RemapIds | _site/readyjetsetgo/services/geminiService.ts:93-96 | same length and order; only ids change; flight i takes input i's id, or a random id past the inputs |
| RestService.RemapKeepsUniqueIds | _site/readyjetsetgo/services/geminiService.ts:93-96 | with no more flights than inputs, unique input ids give unique flight ids |
| RestService.RemapByOwnIds | _site/readyjetsetgo/services/geminiService.ts:93-96 | re-keying flights that already carry the inputs' ids changes nothing |
| RestService.DateLabel | _site/readyjetsetgo/services/geminiService.ts:21 | the date when given, else "Not specified (Infer from previous arrival)" |
| RestService.AirlineText | _site/readyjetsetgo/services/geminiService.ts:122-123 | the airline when given, else "undefined" as a template literal renders it |
| RestService.FlightPhrase | _site/readyjetsetgo/services/geminiService.ts:122-123 | a phrase starts with airline, flight number and " from ", and ends with ")" |
| RestService.Join | _site/readyjetsetgo/services/geminiService.ts:122-124 | joining nothing gives "", otherwise the first part starts the result |
| RestService.FlightSummary | _site/readyjetsetgo/services/geminiService.ts:122-124 | no flights give "", otherwise the first flight's phrase starts the summary |
| RestService.JoinLength | _site/readyjetsetgo/services/geminiService.ts:122-124 | a join is the parts plus one separator between each neighbouring pair |
| RestService.JoinConcat | _site/readyjetsetgo/services/geminiService.ts:122-124 | joining a concatenation is joining each half, with one separator between them |
| RestService.Phrases | _site/readyjetsetgo/services/geminiService.ts:122-123 | one phrase per flight, in itinerary order |
| RestService.SummaryOfJoinedTrips | _site/readyjetsetgo/services/geminiService.ts:122-124 | the summary of a longer trip continues the shorter one's after "; then " |
| RestService.SummaryOfOneFlight | _site/readyjetsetgo/services/geminiService.ts:122-124 | a one-leg trip's summary is that leg's phrase, with no separator |
| RestService.Caught | _site/readyjetsetgo/services/geminiService.ts:103-109 | an abort, or a failure with the signal aborted, is reported as AbortError; any other failure gets the generic message |
| RestService.SearchFlightInfo | _site/readyjetsetgo/services/geminiService.ts:5-110 | an already-aborted signal gives AbortError; every failure carries the generic lookup message; success iff an ok reply decodes, with re-mapped flights (none without `flights`) and the grounded sources |
| RestService.MissingTextGivesNoFlights | _site/readyjetsetgo/services/geminiService.ts:75-93 | a reply without text reads as "{}" and gives zero flights |
| RestService.AbortedFailuresAreAborts | _site/readyjetsetgo/services/geminiService.ts:103-106 | any failure with the signal aborted by the catch is an AbortError |
| RestService.GenerateJetLagPlan | _site/readyjetsetgo/services/geminiService.ts:112-264 | an already-aborted signal gives AbortError; every failure carries "Failed to generate jet lag plan."; success iff an ok reply decodes, giving the decoded plan |
| RestService.MissingTextDecodesEmptyObject | _site/readyjetsetgo/services/geminiService.ts:254-255 | an ok reply without text hands "{}" to the plan decoder, and the request's outcome is whatever that gives |
| SdkService.SearchFlightInfo | _site/readyjetsetgo-source/services/geminiService.ts:8-99 | a missing key fails with "API Key is missing" before anything else; an abort before or after the call gives AbortError; other failures carry the generic message; success iff the reply decodes with no abort |
| SdkService.SearchAgreesWithProxy | _site/readyjetsetgo-source/services/geminiService.ts:64-90 | with a key and no abort, the SDK lookup equals the proxy lookup on the same text and chunks |
| SdkService.LateAbortOnlyStopsSdk | _site/readyjetsetgo-source/services/geminiService.ts:62 | a signal aborted after a good reply stops the SDK lookup but not the proxy lookup |
| SdkService.GenerateJetLagPlan | _site/readyjetsetgo-source/services/geminiService.ts:101-247 | an abort before or after the call gives AbortError; failures carry the generic message; success iff the reply decodes, giving the decoded plan |
| SdkService.PlanAgreesWithProxy | _site/readyjetsetgo-source/services/geminiService.ts:237-238 | with no abort, the SDK plan request equals the proxy one on the same text |

The SDK variant's source extraction (_site/readyjetsetgo-source/services/geminiService.ts:64-76), text default (78), id re-map (82-85) and summary (111-113) are the same code as the proxy variant's. The model uses the `RestService` members for them.

## Left out

- The circadian scheduler and its modifiers (age, chronotype, caffeine, alcohol, melatonin, light, transit). They exist only as prompt prose sent to an external model (_site/readyjetsetgo/services/geminiService.ts:126-166), so there is no code to model. The prompt texts are not modelled either.
- Network I/O: the proxy `fetch`, the SDK call, `response.json()` and the proxy server itself. A call is represented by how it settled: rejected (abort or not), or a reply with its status, text and grounding chunks.
- `JSON.parse` is a decoder parameter. Its failures are the decoder's `None`.
- RestService.SearchFlightInfo: the error text of a non-ok reply (lines 65-68) is not kept, because the catch block replaces it with the generic message. The model returns that generic message directly.
- The AbortController race: a superseded request's `finally` can clear a newer request's controller and loading flag. In the model, requests settle atomically inside one handler call, and `hasController` only records whether a controller is held.
- Date parsing and the browser's time zone and locale. A `DateParser` parameter gives the instant and the local hour. The time labels on the result page (App.tsx:221, 224) are not modelled.
- Planner.GeneratePlan: the duration is compared in whole milliseconds against 7 × 3 600 000, instead of dividing by 3.6e6 in floating point. For integer millisecond differences the two comparisons agree.
- Planner.ToUpper: upper-cases ASCII letters only. JavaScript's `toUpperCase` also maps other letters, some to longer strings.
- Ids from `Date.now()` and `Math.random()` are arguments (`newId`, `randomId`).
- Rendering: JSX, CSS classes (beyond the dot colours), the icons' own styling, `alert` (an `Alerted` result) and `renderTimeline`'s DOM writes.
- FlightForm.Form.HandleSubmit: the lookup and manual callbacks are returned as an outcome value instead of being called.
- FlightForm.Form.HandleSubmit: the browser's own validation of the `required` inputs (FlightForm.tsx:149, 165, 231, 245, 262, 275) normally stops a submit with an empty field before the handler runs; the model covers the handler alone, so its empty-date alert and silent no-op are reached only when that validation is bypassed.
- RestService.GenerateJetLagPlan: the parsed reply is cast to a plan without any check. A reply without text becomes "{}", a field-less object with no schedule or direction, which the caller stores as the plan. The model's typed decoder cannot represent such an object, so it either yields a well-formed plan or fails; `MissingTextDecodesEmptyObject` pins down only that "{}" is what reaches the decoder.
- SdkService.GenerateJetLagPlan: the same unchecked cast (_site/readyjetsetgo-source/services/geminiService.ts:237-238); a field-less object from a text-less reply is likewise not representable.
- Itinerary.CheckContinuity: warnings are produced as structured `Warning` values. `Messages` renders them to the exact texts the screen lists.
- The loading spinners and stop buttons of the forms only forward to `HandleStop`.
