/** The records and closed enumerations shared by every part of the jet-lag planner
    (the itinerary, the bio-profile and the generated plan), with the string
    values each enumeration takes on the wire and in the JSON schema. */
module Types {

  datatype Option<+T> = None | Some(value: T)

  /** One row of the automatic flight lookup form. */
  datatype FlightInput = FlightInput(id: string, flightNumber: string, date: string)

  /** One resolved flight leg; `departureTime`/`arrivalTime` are local ISO timestamps as text. */
  datatype FlightDetails = FlightDetails(
    id: string,
    flightNumber: string,
    origin: string,
    destination: string,
    departureTime: string,
    arrivalTime: string,
    duration: string,
    airline: Option<string>)

  datatype GroundingSource = GroundingSource(title: string, url: string)

  /** What a flight search hands back to the wizard. */
  datatype FlightSearch = FlightSearch(flights: seq<FlightDetails>, sources: seq<GroundingSource>)

  /** The two ways a service call fails: cancelled through its abort signal, or an ordinary error. */
  datatype ServiceError = AbortError | Failure(message: string)

  datatype Outcome<+T> = Ok(value: T) | Err(error: ServiceError)

  /** A timestamp string as the browser's date parser reads it: the instant in
      milliseconds and the hour of the local wall clock. Parsing itself is a parameter. */
  datatype LocalInstant = LocalInstant(epochMs: int, localHour: int)

  /** `None` plays the part of an Invalid Date (NaN). */
  type DateParser = string -> Option<LocalInstant>

  // ---------------------------------------------------------------- bio-profile

  datatype AgeGroup = Age0To18 | Age18To30 | Age30To50 | Age50To70 | Age70Plus
  datatype Chronotype = EarlyBird | NightOwl | Balanced
  datatype Caffeine = AvoidCaffeine | CaffeineAsNeeded | CaffeineOptimized
  datatype Alcohol = NoAlcohol | Relax
  datatype Melatonin = NaturalOnly | Supplements
  datatype LightSensitivity = LowSensitivity | NormalSensitivity | HighSensitivity

  datatype UserPreferences = UserPreferences(
    ageGroup: AgeGroup,
    chronotype: Chronotype,
    caffeine: Caffeine,
    alcohol: Alcohol,
    melatonin: Melatonin,
    lightSensitivity: LightSensitivity)

  function AgeGroupName(a: AgeGroup): string {
    match a
    case Age0To18 => "0-18"
    case Age18To30 => "18-30"
    case Age30To50 => "30-50"
    case Age50To70 => "50-70"
    case Age70Plus => "70+"
  }

  const AgeGroupNames: set<string> := {"0-18", "18-30", "30-50", "50-70", "70+"}

  /** Reads one of the five age-group labels; any other text is no age group. */
  function ParseAgeGroup(s: string): (r: Option<AgeGroup>)
    ensures r.Some? <==> s in AgeGroupNames
    ensures r.Some? ==> AgeGroupName(r.value) == s
  {
    if s == "0-18" then Some(Age0To18)
    else if s == "18-30" then Some(Age18To30)
    else if s == "30-50" then Some(Age30To50)
    else if s == "50-70" then Some(Age50To70)
    else if s == "70+" then Some(Age70Plus)
    else None
  }

  lemma AgeGroupNameRoundTrip(a: AgeGroup)
    ensures ParseAgeGroup(AgeGroupName(a)) == Some(a)
  {
  }

  function ChronotypeName(c: Chronotype): string {
    match c
    case EarlyBird => "early_bird"
    case NightOwl => "night_owl"
    case Balanced => "balanced"
  }

  const ChronotypeNames: set<string> := {"early_bird", "night_owl", "balanced"}

  function ParseChronotype(s: string): (r: Option<Chronotype>)
    ensures r.Some? <==> s in ChronotypeNames
    ensures r.Some? ==> ChronotypeName(r.value) == s
  {
    if s == "early_bird" then Some(EarlyBird)
    else if s == "night_owl" then Some(NightOwl)
    else if s == "balanced" then Some(Balanced)
    else None
  }

  lemma ChronotypeNameRoundTrip(c: Chronotype)
    ensures ParseChronotype(ChronotypeName(c)) == Some(c)
  {
  }

  function CaffeineName(c: Caffeine): string {
    match c
    case AvoidCaffeine => "avoid"
    case CaffeineAsNeeded => "necessary"
    case CaffeineOptimized => "optimized"
  }

  function AlcoholName(a: Alcohol): string {
    match a
    case NoAlcohol => "none"
    case Relax => "relax"
  }

  function MelatoninName(m: Melatonin): string {
    match m
    case NaturalOnly => "natural"
    case Supplements => "supplements"
  }

  function LightSensitivityName(l: LightSensitivity): string {
    match l
    case LowSensitivity => "low"
    case NormalSensitivity => "normal"
    case HighSensitivity => "high"
  }

  /** Distinct members of each bio-profile enumeration carry distinct string values. */
  lemma PreferenceNamesInjective()
    ensures forall a, b: AgeGroup :: AgeGroupName(a) == AgeGroupName(b) ==> a == b
    ensures forall a, b: Chronotype :: ChronotypeName(a) == ChronotypeName(b) ==> a == b
    ensures forall a, b: Caffeine :: CaffeineName(a) == CaffeineName(b) ==> a == b
    ensures forall a, b: Alcohol :: AlcoholName(a) == AlcoholName(b) ==> a == b
    ensures forall a, b: Melatonin :: MelatoninName(a) == MelatoninName(b) ==> a == b
    ensures forall a, b: LightSensitivity :: LightSensitivityName(a) == LightSensitivityName(b) ==> a == b
  {
    forall a, b: AgeGroup | AgeGroupName(a) == AgeGroupName(b) ensures a == b {
      AgeGroupNameRoundTrip(a);
      AgeGroupNameRoundTrip(b);
    }
    forall a, b: Chronotype | ChronotypeName(a) == ChronotypeName(b) ensures a == b {
      ChronotypeNameRoundTrip(a);
      ChronotypeNameRoundTrip(b);
    }
  }

  // ---------------------------------------------------------------- the plan

  datatype EventType = Sleep | Light | Dark | Food | CaffeineEvent | Activity | Flight | Transit

  function EventTypeName(t: EventType): string {
    match t
    case Sleep => "SLEEP"
    case Light => "LIGHT"
    case Dark => "DARK"
    case Food => "FOOD"
    case CaffeineEvent => "CAFFEINE"
    case Activity => "ACTIVITY"
    case Flight => "FLIGHT"
    case Transit => "TRANSIT"
  }

  /** The eight members of the event-type enumeration, in declaration order. */
  const AllEventTypes: seq<EventType> :=
    [Sleep, Light, Dark, Food, CaffeineEvent, Activity, Flight, Transit]

  const EventTypeNames: set<string> :=
    {"SLEEP", "LIGHT", "DARK", "FOOD", "CAFFEINE", "ACTIVITY", "FLIGHT", "TRANSIT"}

  function ParseEventType(s: string): (r: Option<EventType>)
    ensures r.Some? <==> s in EventTypeNames
    ensures r.Some? ==> EventTypeName(r.value) == s
  {
    if s == "SLEEP" then Some(Sleep)
    else if s == "LIGHT" then Some(Light)
    else if s == "DARK" then Some(Dark)
    else if s == "FOOD" then Some(Food)
    else if s == "CAFFEINE" then Some(CaffeineEvent)
    else if s == "ACTIVITY" then Some(Activity)
    else if s == "FLIGHT" then Some(Flight)
    else if s == "TRANSIT" then Some(Transit)
    else None
  }

  /** The enumeration has exactly eight members, each with its own string value. */
  lemma EventTypesExactlyEight()
    ensures |AllEventTypes| == 8
    ensures forall t: EventType :: t in AllEventTypes
    ensures forall i, j :: 0 <= i < j < |AllEventTypes| ==>
              EventTypeName(AllEventTypes[i]) != EventTypeName(AllEventTypes[j])
    ensures forall t: EventType :: ParseEventType(EventTypeName(t)) == Some(t)
  {
    forall t: EventType ensures t in AllEventTypes {
      match t
      case Sleep => assert AllEventTypes[0] == t;
      case Light => assert AllEventTypes[1] == t;
      case Dark => assert AllEventTypes[2] == t;
      case Food => assert AllEventTypes[3] == t;
      case CaffeineEvent => assert AllEventTypes[4] == t;
      case Activity => assert AllEventTypes[5] == t;
      case Flight => assert AllEventTypes[6] == t;
      case Transit => assert AllEventTypes[7] == t;
    }
  }

  datatype Phase = Pre | InFlight | Post

  function PhaseName(p: Phase): string {
    match p
    case Pre => "PRE"
    case InFlight => "FLIGHT"
    case Post => "POST"
  }

  function ParsePhase(s: string): (r: Option<Phase>)
    ensures r.Some? <==> s in {"PRE", "FLIGHT", "POST"}
    ensures r.Some? ==> PhaseName(r.value) == s
  {
    if s == "PRE" then Some(Pre)
    else if s == "FLIGHT" then Some(InFlight)
    else if s == "POST" then Some(Post)
    else None
  }

  datatype ScheduleEvent = ScheduleEvent(
    time: string,
    kind: EventType,
    title: string,
    description: string,
    phase: Phase,
    scienceNote: Option<string>)

  datatype RecommendationItem = RecommendationItem(
    name: string,
    description: string,
    affiliatePlaceholder: Option<bool>)

  datatype Recommendation = Recommendation(category: string, items: seq<RecommendationItem>)

  datatype ScienceLink = ScienceLink(title: string, url: string, description: string)

  datatype Direction = East | West | NorthSouth

  function DirectionName(d: Direction): string {
    match d
    case East => "EAST"
    case West => "WEST"
    case NorthSouth => "NORTH_SOUTH"
  }

  function ParseDirection(s: string): (r: Option<Direction>)
    ensures r.Some? <==> s in {"EAST", "WEST", "NORTH_SOUTH"}
    ensures r.Some? ==> DirectionName(r.value) == s
  {
    if s == "EAST" then Some(East)
    else if s == "WEST" then Some(West)
    else if s == "NORTH_SOUTH" then Some(NorthSouth)
    else None
  }

  datatype JetLagPlan = JetLagPlan(
    schedule: seq<ScheduleEvent>,
    direction: Direction,
    scienceLinks: Option<seq<ScienceLink>>,
    recommendations: Option<seq<Recommendation>>)
}
