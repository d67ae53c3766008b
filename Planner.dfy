/** The stand-alone in-flight sleep planner: four text fields in, either an alert
    or a timeline of three blocks out, the first chosen by a small decision
    table over the flight's length and the local hour of arrival. */
module Planner {
  import opened Types

  /** The airports the planner knows, with their time zones. */
  const AirportTimezones: map<string, string> := map[
    "LHR" := "Europe/London",
    "JFK" := "America/New_York",
    "SFO" := "America/Los_Angeles",
    "SIN" := "Asia/Singapore",
    "HND" := "Asia/Tokyo",
    "DXB" := "Asia/Dubai"
  ]

  const MissingDetails := "Please fill in all flight details."
  const UnknownAirport := "Unknown airport code. MVP supports LHR, JFK, SFO, SIN, HND, DXB."

  /** Seven hours in milliseconds: the shortest flight that counts as long. */
  const LongHaulMs := 7 * 3600000

  function UpperChar(c: char): char {
    if 'a' <= c <= 'z' then (c as int - 32) as char else c
  }

  /** Upper-casing, letter by letter (ASCII letters only). */
  function ToUpper(s: string): (r: string)
    ensures |r| == |s|
    ensures forall i :: 0 <= i < |s| ==> r[i] == UpperChar(s[i])
    ensures forall i :: 0 <= i < |r| ==> !('a' <= r[i] <= 'z')
  {
    if s == [] then [] else [UpperChar(s[0])] + ToUpper(s[1..])
  }

  lemma ToUpperIdempotent(s: string)
    ensures ToUpper(ToUpper(s)) == ToUpper(s)
  {
  }

  /** A code field the planner accepts, whatever its letter case. */
  function KnownAirport(field: string): (b: bool)
    ensures b ==> |field| == 3
    ensures b ==> forall i :: 0 <= i < |field| ==> 'a' <= field[i] <= 'z' || 'A' <= field[i] <= 'Z'
  {
    ToUpper(field) in AirportTimezones
  }

  lemma LetterCaseDoesNotMatter()
    ensures KnownAirport("lhr") && KnownAirport("Jfk") && KnownAirport("DXB")
  {
    assert ToUpper("lhr") == "LHR";
    assert ToUpper("Jfk") == "JFK";
    assert ToUpper("DXB") == "DXB";
  }

  /** A code outside the six, and an empty field, are not known. */
  lemma UnlistedCodesRejected()
    ensures !KnownAirport("CDG") && !KnownAirport("")
  {
    assert ToUpper("CDG") == "CDG";
  }

  /** One entry of the timeline. */
  datatype Block = Block(title: string, time: string, note: string, kind: string)

  /** `block`: the four arguments, kept as they are. */
  function MakeBlock(title: string, time: string, note: string, kind: string): (b: Block)
    ensures b.title == title && b.time == time && b.note == note && b.kind == kind
  {
    Block(title, time, note, kind)
  }

  const NightSleep := MakeBlock("Sleep", "Last 4–5 hours of flight", "Align with destination night", "sleep")
  const MidFlightNap := MakeBlock("Nap", "Mid-flight (max 90 min)", "Avoid long sleep before daytime arrival", "sleep")
  const ShortNap := MakeBlock("Nap", "Short rest only", "Flight too short for full sleep", "sleep")
  const Meal := MakeBlock("Eat", "2–3 hours before landing", "Light meal, avoid heavy food", "eat")
  const StayAwake := MakeBlock("Wake", "Final hour", "Hydrate and stay awake", "wake")

  /** At least seven hours between the two instants; a time that does not parse
      makes the difference NaN, which compares false. */
  function LongHaul(depart: Option<LocalInstant>, arrive: Option<LocalInstant>): (b: bool)
    ensures b ==> depart.Some? && arrive.Some? && arrive.value.epochMs > depart.value.epochMs
  {
    depart.Some? && arrive.Some? && arrive.value.epochMs - depart.value.epochMs >= LongHaulMs
  }

  /** An arrival from six in the evening to five in the morning, both ends included. */
  function NightArrival(hour: int): (b: bool)
    ensures 0 <= hour < 24 ==> (b <==> !(6 <= hour <= 17))
  {
    hour >= 18 || hour <= 5
  }

  datatype PlanResult = Alerted(message: string) | Rendered(timeline: seq<Block>)

  /** generatePlan. `parse` reads a date-time field as the browser would. */
  method GeneratePlan(fromField: string, toField: string, departTime: string, arrivalTime: string,
                      parse: DateParser)
    returns (result: PlanResult)
    ensures (fromField == "" || toField == "" || departTime == "" || arrivalTime == "") ==>
              result == Alerted(MissingDetails)
    ensures fromField != "" && toField != "" && departTime != "" && arrivalTime != ""
            && !(KnownAirport(fromField) && KnownAirport(toField)) ==>
              result == Alerted(UnknownAirport)
    ensures result.Rendered? <==>
              fromField != "" && toField != "" && departTime != "" && arrivalTime != ""
              && KnownAirport(fromField) && KnownAirport(toField)
    ensures result.Rendered? ==>
              var depart, arrive := parse(departTime), parse(arrivalTime);
              && |result.timeline| == 3
              && result.timeline[0] == (if !LongHaul(depart, arrive) then ShortNap
                                        else if NightArrival(arrive.value.localHour) then NightSleep
                                        else MidFlightNap)
              && result.timeline[1] == Meal
              && result.timeline[2] == StayAwake
  {
    var from := ToUpper(fromField);
    var to := ToUpper(toField);
    if from == "" || to == "" || departTime == "" || arrivalTime == "" {
      return Alerted(MissingDetails);
    }
    if !(from in AirportTimezones) || !(to in AirportTimezones) {
      return Alerted(UnknownAirport);
    }
    var depart := parse(departTime);
    var arrive := parse(arrivalTime);
    var timeline: seq<Block> := [];
    if LongHaul(depart, arrive) {
      if NightArrival(arrive.value.localHour) {
        timeline := timeline + [NightSleep];
      } else {
        timeline := timeline + [MidFlightNap];
      }
    } else {
      timeline := timeline + [ShortNap];
    }
    timeline := timeline + [Meal];
    timeline := timeline + [StayAwake];
    result := Rendered(timeline);
  }

  /** Every timeline opens with a block of the sleep kind, then eats, then wakes. */
  lemma FirstBlockIsSleepKind(depart: Option<LocalInstant>, arrive: Option<LocalInstant>)
    ensures (if !LongHaul(depart, arrive) then ShortNap
             else if NightArrival(arrive.value.localHour) then NightSleep
             else MidFlightNap).kind == "sleep"
  {
  }

  /** The thresholds are inclusive: seven hours exactly is long, one millisecond less is
      not, a landing before the take-off is short, and hours 5 and 18 count as night. */
  lemma Boundaries(t: int)
    ensures LongHaul(Some(LocalInstant(t, 0)), Some(LocalInstant(t + LongHaulMs, 0)))
    ensures !LongHaul(Some(LocalInstant(t, 0)), Some(LocalInstant(t + LongHaulMs - 1, 0)))
    ensures !LongHaul(Some(LocalInstant(t, 0)), Some(LocalInstant(t - 1, 0)))
    ensures !LongHaul(None, Some(LocalInstant(t, 0))) && !LongHaul(Some(LocalInstant(t, 0)), None)
    ensures NightArrival(5) && NightArrival(18) && !NightArrival(6) && !NightArrival(17)
  {
  }
}
