/** The plan's timeline view: the schedule split into its pre-flight, in-flight
    and post-flight sections, which of them are drawn, and the icon and colour
    of each event's dot. */
module Timeline {
  import opened Types
  import Lists

  /** The events of one phase, in schedule order. */
  function PhaseEvents(schedule: seq<ScheduleEvent>, p: Phase): (r: seq<ScheduleEvent>)
    ensures |r| <= |schedule|
  {
    Lists.Filter(schedule, (e: ScheduleEvent) => e.phase == p)
  }

  /** A section holds events of its phase only, taken from the schedule, and every
      event of that phase. */
  lemma PhaseEventsExact(schedule: seq<ScheduleEvent>, p: Phase)
    ensures forall i :: 0 <= i < |PhaseEvents(schedule, p)| ==>
              PhaseEvents(schedule, p)[i].phase == p && PhaseEvents(schedule, p)[i] in schedule
    ensures forall i :: 0 <= i < |schedule| && schedule[i].phase == p ==> schedule[i] in PhaseEvents(schedule, p)
  {
  }

  lemma PhaseEventsCons(schedule: seq<ScheduleEvent>, p: Phase)
    requires schedule != []
    ensures PhaseEvents(schedule, p) ==
              (if schedule[0].phase == p then [schedule[0]] else []) + PhaseEvents(schedule[1..], p)
  {
  }

  /** Splitting keeps relative order: the sections of a concatenation are the
      concatenations of the sections. */
  lemma PhaseEventsAppend(a: seq<ScheduleEvent>, b: seq<ScheduleEvent>, p: Phase)
    ensures PhaseEvents(a + b, p) == PhaseEvents(a, p) + PhaseEvents(b, p)
  {
    Lists.FilterAppend(a, b, (e: ScheduleEvent) => e.phase == p);
  }

  /** A schedule of one phase is shown whole, in its own order, in that phase's section. */
  lemma SinglePhaseScheduleKeptWhole(schedule: seq<ScheduleEvent>, p: Phase)
    requires forall i :: 0 <= i < |schedule| ==> schedule[i].phase == p
    ensures PhaseEvents(schedule, p) == schedule
  {
    Lists.FilterAll(schedule, (e: ScheduleEvent) => e.phase == p);
  }

  /** The events of the three sections, counted together. */
  ghost function SectionsMultiset(schedule: seq<ScheduleEvent>): multiset<ScheduleEvent> {
    multiset(PhaseEvents(schedule, Pre)) + multiset(PhaseEvents(schedule, InFlight))
    + multiset(PhaseEvents(schedule, Post))
  }

  /** One section of a non-empty schedule, counted: the first event if it has that phase,
      then the section of the rest. */
  lemma SectionCons(schedule: seq<ScheduleEvent>, p: Phase)
    requires schedule != []
    ensures multiset(PhaseEvents(schedule, p)) ==
              (if schedule[0].phase == p then multiset{schedule[0]} else multiset{}) + multiset(PhaseEvents(schedule[1..], p))
  {
    PhaseEventsCons(schedule, p);
  }

  /** The first event lands in exactly one section. */
  lemma SectionsMultisetCons(schedule: seq<ScheduleEvent>)
    requires schedule != []
    ensures SectionsMultiset(schedule) == multiset{schedule[0]} + SectionsMultiset(schedule[1..])
  {
    SectionCons(schedule, Pre);
    SectionCons(schedule, InFlight);
    SectionCons(schedule, Post);
  }

  /** Phase is a closed three-value type, so the three sections together hold every
      event exactly once. */
  lemma {:induction false} SectionsPartitionSchedule(schedule: seq<ScheduleEvent>)
    ensures SectionsMultiset(schedule) == multiset(schedule)
  {
    if schedule != [] {
      var x, rest := schedule[0], schedule[1..];
      SectionsPartitionSchedule(rest);
      SectionsMultisetCons(schedule);
      assert schedule == [x] + rest;
      assert multiset(schedule) == multiset([x]) + multiset(rest);
      assert multiset([x]) == multiset{x};
    } else {
      assert PhaseEvents(schedule, Pre) == [] && PhaseEvents(schedule, InFlight) == []
             && PhaseEvents(schedule, Post) == [];
    }
  }

  /** Hence the section lengths add up to the schedule's. */
  lemma SectionLengthsAddUp(schedule: seq<ScheduleEvent>)
    ensures |PhaseEvents(schedule, Pre)| + |PhaseEvents(schedule, InFlight)|
            + |PhaseEvents(schedule, Post)| == |schedule|
  {
    SectionsPartitionSchedule(schedule);
    assert SectionsMultiset(schedule) == multiset(schedule);
    var pre, flight, post := PhaseEvents(schedule, Pre), PhaseEvents(schedule, InFlight), PhaseEvents(schedule, Post);
    assert |multiset(pre)| == |pre| && |multiset(flight)| == |flight| && |multiset(post)| == |post|;
    assert |multiset(schedule)| == |schedule|;
  }

  /** Whether a phase has anything scheduled. */
  predicate HasPhase(schedule: seq<ScheduleEvent>, p: Phase) {
    exists i :: 0 <= i < |schedule| && schedule[i].phase == p
  }

  lemma PhaseEventsEmptyIff(schedule: seq<ScheduleEvent>, p: Phase)
    ensures |PhaseEvents(schedule, p)| > 0 <==> HasPhase(schedule, p)
  {
    var r := PhaseEvents(schedule, p);
    PhaseEventsExact(schedule, p);
    if HasPhase(schedule, p) {
      var i :| 0 <= i < |schedule| && schedule[i].phase == p;
      assert schedule[i] in r;
    }
    if |r| > 0 {
      assert r[0] in schedule;
      var i :| 0 <= i < |schedule| && schedule[i] == r[0];
      assert schedule[i].phase == p;
    }
  }

  /** The pre-flight section is drawn when its toggle is on and it has events. */
  function PreSectionShown(schedule: seq<ScheduleEvent>, showPreFlight: bool): (shown: bool)
    ensures shown <==> showPreFlight && HasPhase(schedule, Pre)
  {
    PhaseEventsEmptyIff(schedule, Pre);
    showPreFlight && |PhaseEvents(schedule, Pre)| > 0
  }

  /** Likewise the post-flight section. */
  function PostSectionShown(schedule: seq<ScheduleEvent>, showPostFlight: bool): (shown: bool)
    ensures shown <==> showPostFlight && HasPhase(schedule, Post)
  {
    PhaseEventsEmptyIff(schedule, Post);
    showPostFlight && |PhaseEvents(schedule, Post)| > 0
  }

  const NoEventsText := "No events generated for this phase."

  /** What a drawn section holds: its events, or a line saying there are none. */
  datatype SectionBody = Placeholder(text: string) | Events(events: seq<ScheduleEvent>)

  function SectionBodyOf(events: seq<ScheduleEvent>): (r: SectionBody)
    ensures r.Placeholder? <==> events == []
    ensures r.Placeholder? ==> r.text == NoEventsText
    ensures r.Events? ==> r.events == events
  {
    if |events| == 0 then Placeholder(NoEventsText) else Events(events)
  }

  /** The flight section is drawn whatever the toggles say; it shows the placeholder
      exactly when nothing is scheduled in flight. */
  lemma FlightSectionPlaceholderIff(schedule: seq<ScheduleEvent>)
    ensures SectionBodyOf(PhaseEvents(schedule, InFlight)).Placeholder? <==> !HasPhase(schedule, InFlight)
  {
    PhaseEventsEmptyIff(schedule, InFlight);
  }

  /** The explanation under an event: shown only with the toggle on and a non-empty note. */
  function ExplanationShown(e: ScheduleEvent, showExplanation: bool): (r: Option<string>)
    ensures r.Some? <==> showExplanation && e.scienceNote.Some? && e.scienceNote.value != ""
    ensures r.Some? ==> r == e.scienceNote
  {
    if showExplanation && e.scienceNote.Some? && e.scienceNote.value != "" then e.scienceNote else None
  }

  datatype Icon = Moon | Sun | EyeOff | Utensils | Coffee | Plane | Footprints | Pulse | ShieldAlert

  /** Each event type has an icon of its own; the fallback shield is never drawn. */
  function IconFor(t: EventType): (r: Icon)
    ensures r != ShieldAlert
  {
    match t
    case Sleep => Moon
    case Light => Sun
    case Dark => EyeOff
    case Food => Utensils
    case CaffeineEvent => Coffee
    case Flight => Plane
    case Transit => Footprints
    case Activity => Pulse
  }

  lemma IconsDistinct(s: EventType, t: EventType)
    requires s != t
    ensures IconFor(s) != IconFor(t)
  {
  }

  const DefaultColor := "bg-slate-500 border-slate-400"

  /** The dot's colour classes. Activity has no colour of its own and takes the default. */
  function ColorFor(t: EventType): (r: string)
    ensures r == DefaultColor <==> t == Activity
  {
    match t
    case Sleep => "bg-indigo-900 border-indigo-700"
    case Light => "bg-yellow-500 border-yellow-400"
    case Dark => "bg-slate-800 border-slate-700"
    case Food => "bg-emerald-600 border-emerald-500"
    case CaffeineEvent => "bg-amber-700 border-amber-600"
    case Flight => "bg-blue-600 border-blue-500"
    case Transit => "bg-sky-500 border-sky-400"
    case Activity => DefaultColor
  }
}
