/** The four-step wizard that drives the planner: flight input, confirmation,
    bio-profile, result. Each request to the planning service is modelled by the
    value it settles with (flights, an abort or an error), so a handler runs as
    one atomic state change. */
module Wizard {
  import opened Types

  datatype Step = Input | Confirm | Preferences | Result

  /** The progress bar's segments, in order. */
  const Steps: seq<Step> := [Input, Confirm, Preferences, Result]

  /** `indexOf(step)` in the segment list: the position where the step sits. */
  function StepIndex(s: Step): (r: nat)
    ensures r < |Steps| && Steps[r] == s
    ensures forall k :: 0 <= k < r ==> Steps[k] != s
  {
    match s
    case Input => 0
    case Confirm => 1
    case Preferences => 2
    case Result => 3
  }

  /** Segment `i` is drawn wide and blue once the wizard has reached it. */
  function SegmentHighlighted(s: Step, i: int): (b: bool)
    ensures i <= 0 ==> b
    ensures i >= |Steps| ==> !b
  {
    StepIndex(s) >= i
  }

  /** The highlighted segments are exactly a prefix, one longer than the step's index. */
  lemma HighlightedPrefix(s: Step)
    ensures forall i :: 0 <= i < |Steps| ==> (SegmentHighlighted(s, i) <==> i <= StepIndex(s))
    ensures SegmentHighlighted(s, 0)
    ensures !SegmentHighlighted(s, StepIndex(s) + 1)
  {
  }

  /** A later step highlights every segment an earlier one does. */
  lemma HighlightGrows(s: Step, t: Step, i: int)
    requires StepIndex(s) <= StepIndex(t) && SegmentHighlighted(s, i)
    ensures SegmentHighlighted(t, i)
  {
  }

  function BackVisible(s: Step): (b: bool)
    ensures b <==> StepIndex(s) > 0
  {
    s != Input
  }

  /** goBack: one step towards the start; the first step has nowhere to go. */
  function PreviousStep(s: Step): (r: Step)
    ensures s == Input ==> r == Input
    ensures s != Input ==> StepIndex(r) + 1 == StepIndex(s)
  {
    match s
    case Input => Input
    case Confirm => Input
    case Preferences => Confirm
    case Result => Preferences
  }

  /** The back button is offered exactly on the steps it can leave. */
  lemma BackButtonMovesIffVisible(s: Step)
    ensures BackVisible(s) <==> PreviousStep(s) != s
  {
  }

  const NoFlightsFound := "No flight information found. Please verify details."
  const SearchFallback := "Failed to find flights."
  const PlanFallback := "Failed to generate plan."

  /** The banner text a failed request leaves: none for an abort, otherwise the error's
      message, or the handler's fallback when the message is empty. */
  function ErrorText(e: ServiceError, fallback: string): (r: Option<string>)
    ensures r.None? <==> e.AbortError?
    ensures e.Failure? && e.message != "" ==> r == Some(e.message)
    ensures e.Failure? && e.message == "" ==> r == Some(fallback)
    ensures r.Some? && fallback != "" ==> r.value != ""
  {
    match e
    case AbortError => None
    case Failure(m) => Some(if m != "" then m else fallback)
  }

  /** What a search's settled value leaves in the banner: an empty flight list is an
      error of its own. */
  function SearchErrorText(outcome: Outcome<FlightSearch>): (r: Option<string>)
    ensures outcome.Ok? && |outcome.value.flights| > 0 ==> r.None?
    ensures outcome.Ok? && |outcome.value.flights| == 0 ==> r == Some(NoFlightsFound)
    ensures outcome.Err? ==> r == ErrorText(outcome.error, SearchFallback)
  {
    match outcome
    case Ok(found) => if |found.flights| == 0 then Some(NoFlightsFound) else None
    case Err(e) => ErrorText(e, SearchFallback)
  }

  /** Only a search that found flights moves the wizard on; an abort or a failure leaves
      the step where it was, and every failure but an abort leaves a non-empty banner. */
  lemma SearchAdvancesIffFlightsFound(outcome: Outcome<FlightSearch>)
    ensures SearchErrorText(outcome).None? <==>
              (outcome.Ok? && |outcome.value.flights| > 0) || outcome == Err(AbortError)
    ensures SearchErrorText(outcome).Some? ==> SearchErrorText(outcome).value != ""
  {
  }

  class App {
    var step: Step
    var foundFlights: seq<FlightDetails>
    var foundSources: seq<GroundingSource>
    var plan: Option<JetLagPlan>
    var showPreFlight: bool
    var showPostFlight: bool
    var showExplanation: bool
    var isLoading: bool
    var error: Option<string>
    /** Whether a request's abort controller is held. */
    var hasController: bool

    /** The result step is only ever reached with a plan to show; between handlers
        nothing is in flight. */
    predicate Valid()
      reads this
    {
      (step == Result ==> plan.Some?) && !isLoading && !hasController
    }

    constructor ()
      ensures step == Input && foundFlights == [] && foundSources == [] && plan == None
      ensures showPreFlight && showPostFlight && showExplanation
      ensures !isLoading && error == None && !hasController
      ensures Valid()
    {
      step := Input;
      foundFlights := [];
      foundSources := [];
      plan := None;
      showPreFlight := true;
      showPostFlight := true;
      showExplanation := true;
      isLoading := false;
      error := None;
      hasController := false;
    }

    /** handleStop: the held request is cancelled and loading ends. */
    method HandleStop()
      modifies this
      ensures !hasController && !isLoading
      ensures step == old(step) && foundFlights == old(foundFlights) && foundSources == old(foundSources)
      ensures plan == old(plan) && error == old(error)
      ensures showPreFlight == old(showPreFlight) && showPostFlight == old(showPostFlight)
      ensures showExplanation == old(showExplanation)
      ensures old(step == Result ==> plan.Some?) ==> Valid()
    {
      if hasController {
        hasController := false;
      }
      isLoading := false;
    }

    /** handleFlightSearch, given the value the lookup settled with. */
    method HandleFlightSearch(outcome: Outcome<FlightSearch>)
      modifies this
      ensures outcome.Ok? && |outcome.value.flights| > 0 ==>
                step == Confirm && foundFlights == outcome.value.flights
                && foundSources == outcome.value.sources
      ensures !(outcome.Ok? && |outcome.value.flights| > 0) ==>
                step == old(step) && foundFlights == old(foundFlights) && foundSources == old(foundSources)
      ensures error == SearchErrorText(outcome)
      ensures plan == old(plan) && !isLoading && !hasController
      ensures showPreFlight == old(showPreFlight) && showPostFlight == old(showPostFlight)
      ensures showExplanation == old(showExplanation)
      ensures old(Valid()) ==> Valid()
    {
      HandleStop();
      hasController := true;
      isLoading := true;
      error := None;
      match outcome {
        case Ok(found) =>
          if |found.flights| == 0 {
            error := Some(NoFlightsFound);
          } else {
            foundFlights := found.flights;
            foundSources := found.sources;
            step := Confirm;
          }
        case Err(e) =>
          if !e.AbortError? {
            error := ErrorText(e, SearchFallback);
          }
      }
      isLoading := false;
      hasController := false;
    }

    /** handleManualEntry: the keyed-in legs replace the found ones, with no sources. */
    method HandleManualEntry(manualFlights: seq<FlightDetails>)
      modifies this
      ensures step == Confirm && foundFlights == manualFlights && foundSources == [] && error == None
      ensures plan == old(plan) && isLoading == old(isLoading) && hasController == old(hasController)
      ensures showPreFlight == old(showPreFlight) && showPostFlight == old(showPostFlight)
      ensures showExplanation == old(showExplanation)
      ensures old(Valid()) ==> Valid()
    {
      foundFlights := manualFlights;
      foundSources := [];
      error := None;
      step := Confirm;
    }

    /** handleFlightConfirmation: the edited legs replace the found ones. */
    method HandleFlightConfirmation(confirmedFlights: seq<FlightDetails>)
      modifies this
      ensures step == Preferences && foundFlights == confirmedFlights
      ensures foundSources == old(foundSources) && plan == old(plan) && error == old(error)
      ensures isLoading == old(isLoading) && hasController == old(hasController)
      ensures showPreFlight == old(showPreFlight) && showPostFlight == old(showPostFlight)
      ensures showExplanation == old(showExplanation)
      ensures old(Valid()) ==> Valid()
    {
      foundFlights := confirmedFlights;
      step := Preferences;
    }

    /** handleGeneratePlan, given the value the plan request settled with. */
    method HandleGeneratePlan(outcome: Outcome<JetLagPlan>)
      modifies this
      ensures outcome.Ok? ==> step == Result && plan == Some(outcome.value) && error == None
      ensures outcome.Err? ==>
                step == old(step) && plan == old(plan) && error == ErrorText(outcome.error, PlanFallback)
      ensures foundFlights == old(foundFlights) && foundSources == old(foundSources)
      ensures !isLoading && !hasController
      ensures showPreFlight == old(showPreFlight) && showPostFlight == old(showPostFlight)
      ensures showExplanation == old(showExplanation)
      ensures old(Valid()) ==> Valid()
    {
      HandleStop();
      hasController := true;
      isLoading := true;
      error := None;
      match outcome {
        case Ok(generated) =>
          plan := Some(generated);
          step := Result;
        case Err(e) =>
          if !e.AbortError? {
            error := ErrorText(e, PlanFallback);
          }
      }
      isLoading := false;
      hasController := false;
    }

    /** resetApp: back to the first step with the toggles on; the sources of the last
        search are kept. */
    method ResetApp()
      modifies this
      ensures step == Input && foundFlights == [] && plan == None && error == None
      ensures showPreFlight && showPostFlight && showExplanation
      ensures !isLoading && !hasController
      ensures foundSources == old(foundSources)
      ensures Valid()
    {
      HandleStop();
      step := Input;
      foundFlights := [];
      plan := None;
      error := None;
      showPreFlight := true;
      showPostFlight := true;
      showExplanation := true;
    }

    method GoBack()
      modifies this
      ensures step == PreviousStep(old(step))
      ensures foundFlights == old(foundFlights) && foundSources == old(foundSources)
      ensures plan == old(plan) && error == old(error)
      ensures isLoading == old(isLoading) && hasController == old(hasController)
      ensures showPreFlight == old(showPreFlight) && showPostFlight == old(showPostFlight)
      ensures showExplanation == old(showExplanation)
      ensures old(Valid()) ==> Valid()
    {
      if step == Confirm {
        step := Input;
      } else if step == Preferences {
        step := Confirm;
      } else if step == Result {
        step := Preferences;
      }
    }

    /** The result page's "Edit Details" link. */
    method EditDetails()
      modifies this
      ensures step == Confirm
      ensures foundFlights == old(foundFlights) && foundSources == old(foundSources)
      ensures plan == old(plan) && error == old(error)
      ensures isLoading == old(isLoading) && hasController == old(hasController)
      ensures showPreFlight == old(showPreFlight) && showPostFlight == old(showPostFlight)
      ensures showExplanation == old(showExplanation)
      ensures old(Valid()) ==> Valid()
    {
      step := Confirm;
    }

    method SetShowPreFlight(checked: bool)
      modifies this
      ensures showPreFlight == checked
      ensures step == old(step) && foundFlights == old(foundFlights) && foundSources == old(foundSources)
      ensures plan == old(plan) && error == old(error)
      ensures isLoading == old(isLoading) && hasController == old(hasController)
      ensures showPostFlight == old(showPostFlight) && showExplanation == old(showExplanation)
    {
      showPreFlight := checked;
    }

    method SetShowPostFlight(checked: bool)
      modifies this
      ensures showPostFlight == checked
      ensures step == old(step) && foundFlights == old(foundFlights) && foundSources == old(foundSources)
      ensures plan == old(plan) && error == old(error)
      ensures isLoading == old(isLoading) && hasController == old(hasController)
      ensures showPreFlight == old(showPreFlight) && showExplanation == old(showExplanation)
    {
      showPostFlight := checked;
    }

    method SetShowExplanation(checked: bool)
      modifies this
      ensures showExplanation == checked
      ensures step == old(step) && foundFlights == old(foundFlights) && foundSources == old(foundSources)
      ensures plan == old(plan) && error == old(error)
      ensures isLoading == old(isLoading) && hasController == old(hasController)
      ensures showPreFlight == old(showPreFlight) && showPostFlight == old(showPostFlight)
    {
      showExplanation := checked;
    }
  }

  /** A lookup that finds a flight, its confirmation and a generated plan take a fresh
      wizard through every step to the result page, with the plan and no banner. */
  method CompleteJourney(search: FlightSearch, confirmed: seq<FlightDetails>, generated: JetLagPlan)
    returns (app: App)
    requires |search.flights| > 0
    ensures app.step == Result && app.plan == Some(generated) && app.error == None
    ensures app.foundFlights == confirmed && app.Valid()
  {
    app := new App();
    app.HandleFlightSearch(Ok(search));
    app.HandleFlightConfirmation(confirmed);
    app.HandleGeneratePlan(Ok(generated));
  }
}
