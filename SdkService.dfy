/** The planning service as reached directly through the vendor SDK. It shares
    the reply handling of the proxy variant, and differs in two guards: the flight
    lookup refuses to start without an API key, and both requests check the abort
    signal again once the call has returned. */
module SdkService {
  import opened Types
  import RestService

  /** How the SDK call settled: rejected, or the reply's text and grounding chunks. */
  datatype SdkCall =
    | Rejected(isAbort: bool)
    | Replied(text: Option<string>, chunks: Option<seq<RestService.GroundingChunk>>)

  const ApiKeyMissing := "API Key is missing"

  /** searchFlightInfo. The key check is outside the try block, so its error reaches the
      caller as it is. `abortedAfterCall` is the signal once the call has settled. */
  function SearchFlightInfo(hasApiKey: bool, inputs: seq<FlightInput>, abortedBefore: bool, call: SdkCall,
                            abortedAfterCall: bool, decode: RestService.FlightsDecoder, randomId: nat -> string)
    : (r: Outcome<FlightSearch>)
    ensures !hasApiKey ==> r == Err(Failure(ApiKeyMissing))
    ensures hasApiKey && (abortedBefore || abortedAfterCall) ==> r == Err(AbortError)
    ensures r.Err? && r.error.Failure? && hasApiKey ==> r.error.message == RestService.FlightLookupFailed
    ensures r.Ok? <==> hasApiKey && !abortedBefore && !abortedAfterCall && call.Replied?
                       && decode(RestService.ResponseText(call.text)).Some?
  {
    if !hasApiKey then Err(Failure(ApiKeyMissing))
    else if abortedBefore then Err(AbortError)
    else match call
      case Rejected(isAbort) => Err(RestService.Caught(isAbort, abortedAfterCall, RestService.FlightLookupFailed))
      case Replied(text, chunks) =>
        if abortedAfterCall then Err(AbortError)
        else match decode(RestService.ResponseText(text))
          case None => Err(RestService.Caught(false, false, RestService.FlightLookupFailed))
          case Some(flights) =>
            Ok(FlightSearch(RestService.RemapIds(if flights.Some? then flights.value else [], inputs, randomId),
                            if chunks.Some? then RestService.GroundedSources(chunks.value) else []))
  }

  /** With a key and no abort, the SDK lookup gives what the proxy lookup gives for a
      successful reply carrying the same text and chunks. */
  lemma SearchAgreesWithProxy(inputs: seq<FlightInput>, text: Option<string>,
                              chunks: Option<seq<RestService.GroundingChunk>>,
                              decode: RestService.FlightsDecoder, randomId: nat -> string)
    ensures SearchFlightInfo(true, inputs, false, Replied(text, chunks), false, decode, randomId)
            == RestService.SearchFlightInfo(inputs, false, RestService.Replied(true, text, chunks), false, decode, randomId)
  {
  }

  /** The two variants part ways when the signal is aborted after a good reply: the proxy
      variant still returns the flights, the SDK variant reports an abort. */
  lemma LateAbortOnlyStopsSdk(inputs: seq<FlightInput>, decode: RestService.FlightsDecoder, randomId: nat -> string)
    requires decode(RestService.EmptyObject).Some?
    ensures RestService.SearchFlightInfo(inputs, false, RestService.Replied(true, None, None), true, decode, randomId).Ok?
    ensures SearchFlightInfo(true, inputs, false, Replied(None, None), true, decode, randomId) == Err(AbortError)
  {
  }

  /** generateJetLagPlan: no key check, the same abort guards. */
  function GenerateJetLagPlan(abortedBefore: bool, call: SdkCall, abortedAfterCall: bool,
                              decode: RestService.PlanDecoder)
    : (r: Outcome<JetLagPlan>)
    ensures abortedBefore || abortedAfterCall ==> r == Err(AbortError)
    ensures r.Err? && r.error.Failure? ==> r.error.message == RestService.PlanFailed
    ensures r.Ok? <==> !abortedBefore && !abortedAfterCall && call.Replied?
                       && decode(RestService.ResponseText(call.text)).Some?
    ensures r.Ok? ==> r.value == decode(RestService.ResponseText(call.text)).value
  {
    if abortedBefore then Err(AbortError)
    else match call
      case Rejected(isAbort) => Err(RestService.Caught(isAbort, abortedAfterCall, RestService.PlanFailed))
      case Replied(text, _) =>
        if abortedAfterCall then Err(AbortError)
        else match decode(RestService.ResponseText(text))
          case None => Err(RestService.Caught(false, false, RestService.PlanFailed))
          case Some(plan) => Ok(plan)
  }

  lemma PlanAgreesWithProxy(text: Option<string>, decode: RestService.PlanDecoder)
    ensures GenerateJetLagPlan(false, Replied(text, None), false, decode)
            == RestService.GenerateJetLagPlan(false, RestService.Replied(true, text, None), false, decode)
  {
  }
}
