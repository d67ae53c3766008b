/** The planning service as reached through the site's REST proxy: the flight
    lookup and the plan request, reduced to what they do with the reply
    (grounding sources, the text default, re-keying the flights) and how they
    report failure. The network call, JSON decoding and randomness are parameters. */
module RestService {
  import opened Types
  import Lists

  // ---------------------------------------------------------------- grounding sources

  datatype Web = Web(uri: Option<string>, title: Option<string>)
  datatype GroundingChunk = GroundingChunk(web: Option<Web>)

  /** `chunk.web?.uri && chunk.web?.title`: both present and non-empty. */
  predicate IsCitable(c: GroundingChunk) {
    c.web.Some? && c.web.value.uri.Some? && c.web.value.uri.value != ""
    && c.web.value.title.Some? && c.web.value.title.value != ""
  }

  function SourceOf(c: GroundingChunk): GroundingSource
    requires IsCitable(c)
  {
    GroundingSource(c.web.value.title.value, c.web.value.uri.value)
  }

  /** The sources the reply cites: one per citable chunk, in chunk order. */
  function GroundedSources(chunks: seq<GroundingChunk>): (r: seq<GroundingSource>)
    ensures |r| <= |chunks|
    ensures forall k :: 0 <= k < |r| ==> r[k].title != "" && r[k].url != ""
  {
    if |chunks| == 0 then []
    else
      var last := chunks[|chunks| - 1];
      GroundedSources(chunks[..|chunks| - 1]) + (if IsCitable(last) then [SourceOf(last)] else [])
  }

  /** The same list defined independently: keep the citable chunks, then read each one. */
  function CitedSources(chunks: seq<GroundingChunk>): (r: seq<GroundingSource>)
    ensures |r| <= |chunks|
  {
    var kept := Lists.Filter(chunks, IsCitable);
    seq(|kept|, i requires 0 <= i < |kept| => SourceOf(kept[i]))
  }

  lemma CitedSourcesAppendOne(chunks: seq<GroundingChunk>, c: GroundingChunk)
    ensures CitedSources(chunks + [c]) == CitedSources(chunks) + (if IsCitable(c) then [SourceOf(c)] else [])
  {
    Lists.FilterAppend(chunks, [c], IsCitable);
    assert Lists.Filter([c], IsCitable) == (if IsCitable(c) then [c] else []) by {
      assert [c][1..] == [];
    }
  }

  /** The loop's result is exactly "filter the citable chunks, then map them". */
  lemma {:induction false} GroundedSourcesAreCited(chunks: seq<GroundingChunk>)
    ensures GroundedSources(chunks) == CitedSources(chunks)
  {
    if |chunks| > 0 {
      var init, last := chunks[..|chunks| - 1], chunks[|chunks| - 1];
      GroundedSourcesAreCited(init);
      assert chunks == init + [last];
      CitedSourcesAppendOne(init, last);
    }
  }

  /** Every source has a title and a url, and no source is invented. */
  lemma GroundedSourcesWellFormed(chunks: seq<GroundingChunk>)
    ensures |GroundedSources(chunks)| <= |chunks|
    ensures forall k :: 0 <= k < |GroundedSources(chunks)| ==>
              GroundedSources(chunks)[k].title != "" && GroundedSources(chunks)[k].url != ""
    ensures forall k :: 0 <= k < |GroundedSources(chunks)| ==>
              exists j :: 0 <= j < |chunks| && IsCitable(chunks[j]) && GroundedSources(chunks)[k] == SourceOf(chunks[j])
  {
    GroundedSourcesAreCited(chunks);
    var kept := Lists.Filter(chunks, IsCitable);
    var r := GroundedSources(chunks);
    assert |r| == |kept|;
    forall k | 0 <= k < |r|
      ensures r[k].title != "" && r[k].url != ""
      ensures exists j :: 0 <= j < |chunks| && IsCitable(chunks[j]) && r[k] == SourceOf(chunks[j])
    {
      assert IsCitable(kept[k]) && kept[k] in chunks;
      assert r[k] == SourceOf(kept[k]);
      var j :| 0 <= j < |chunks| && chunks[j] == kept[k];
    }
    assert |r| <= |chunks|;
    assert forall k :: 0 <= k < |r| ==> r[k].title != "" && r[k].url != "";
  }

  /** The `forEach` over the grounding chunks; absent chunks give no sources. */
  method ExtractSources(chunks: Option<seq<GroundingChunk>>) returns (sources: seq<GroundingSource>)
    ensures chunks.None? ==> sources == []
    ensures chunks.Some? ==> sources == GroundedSources(chunks.value)
  {
    sources := [];
    if chunks.Some? {
      var cs := chunks.value;
      var i := 0;
      while i < |cs|
        invariant 0 <= i <= |cs|
        invariant sources == GroundedSources(cs[..i])
      {
        assert cs[..i + 1][..i] == cs[..i];
        var chunk := cs[i];
        if IsCitable(chunk) {
          sources := sources + [SourceOf(chunk)];
        }
        i := i + 1;
      }
      assert cs[..i] == cs;
    }
  }

  // ---------------------------------------------------------------- reply text and flights

  const EmptyObject := "{}"

  /** The reply's text, or an empty JSON object when it is missing or empty. */
  function ResponseText(text: Option<string>): (r: string)
    ensures r != ""
    ensures text.Some? && text.value != "" ==> r == text.value
    ensures text.None? || text.value == "" ==> r == EmptyObject
  {
    if text.Some? && text.value != "" then text.value else EmptyObject
  }

  /** Re-keying the returned flights by position: flight `i` takes the id of input `i`,
      or `randomId(i)` past the end of the inputs; nothing else about it changes. */
  function RemapIds(flights: seq<FlightDetails>, inputs: seq<FlightInput>, randomId: nat -> string)
    : (r: seq<FlightDetails>)
    ensures |r| == |flights|
    ensures forall i :: 0 <= i < |flights| ==> r[i].(id := flights[i].id) == flights[i]
    ensures forall i :: 0 <= i < |flights| && i < |inputs| ==> r[i].id == inputs[i].id
    ensures forall i :: |inputs| <= i < |flights| ==> r[i].id == randomId(i)
  {
    seq(|flights|, i requires 0 <= i < |flights| =>
      flights[i].(id := if i < |inputs| then inputs[i].id else randomId(i)))
  }

  function InputId(f: FlightInput): string { f.id }
  function FlightId(f: FlightDetails): string { f.id }

  /** When the reply has no more flights than were asked for, the flights carry the
      inputs' ids in order, so ids the form kept unique stay unique. */
  lemma RemapKeepsUniqueIds(flights: seq<FlightDetails>, inputs: seq<FlightInput>, randomId: nat -> string)
    requires |flights| <= |inputs| && Lists.UniqueKeys(inputs, InputId)
    ensures Lists.UniqueKeys(RemapIds(flights, inputs, randomId), FlightId)
  {
    var r := RemapIds(flights, inputs, randomId);
    forall i, j | 0 <= i < j < |r| ensures FlightId(r[i]) != FlightId(r[j]) {
      assert FlightId(r[i]) == InputId(inputs[i]) && FlightId(r[j]) == InputId(inputs[j]);
    }
  }

  /** Re-keying an already keyed list by its own inputs is the identity. */
  lemma RemapByOwnIds(flights: seq<FlightDetails>, inputs: seq<FlightInput>, randomId: nat -> string)
    requires |flights| == |inputs| && forall i :: 0 <= i < |flights| ==> flights[i].id == inputs[i].id
    ensures RemapIds(flights, inputs, randomId) == flights
  {
    var r := RemapIds(flights, inputs, randomId);
    forall i | 0 <= i < |flights| ensures r[i] == flights[i] {
      assert r[i].(id := flights[i].id) == flights[i];
    }
  }

  // ---------------------------------------------------------------- prompt pieces

  const NoDateGiven := "Not specified (Infer from previous arrival)"

  /** The date a leg is described with in the lookup prompt. */
  function DateLabel(date: string): (r: string)
    ensures r != ""
    ensures date != "" ==> r == date
    ensures date == "" ==> r == NoDateGiven
  {
    if date != "" then date else NoDateGiven
  }

  /** A template literal renders a missing airline as the word "undefined". */
  function AirlineText(airline: Option<string>): (r: string)
    ensures airline.Some? ==> r == airline.value
    ensures airline.None? ==> r == "undefined"
  {
    match airline
    case Some(a) => a
    case None => "undefined"
  }

  function FlightPhrase(f: FlightDetails): (r: string)
    ensures AirlineText(f.airline) + " " + f.flightNumber + " from " <= r
    ensures |r| > 0 && r[|r| - 1] == ')'
  {
    AirlineText(f.airline) + " " + f.flightNumber + " from " + f.origin + " (" + f.departureTime
    + ") to " + f.destination + " (" + f.arrivalTime + ")"
  }

  /** `Array.prototype.join`. */
  function Join(parts: seq<string>, sep: string): (r: string)
    ensures |parts| == 0 ==> r == ""
    ensures |parts| > 0 ==> parts[0] <= r
  {
    if |parts| == 0 then ""
    else if |parts| == 1 then parts[0]
    else Join(parts[..|parts| - 1], sep) + sep + parts[|parts| - 1]
  }

  function SumLengths(parts: seq<string>): nat {
    if |parts| == 0 then 0 else SumLengths(parts[..|parts| - 1]) + |parts[|parts| - 1]|
  }

  /** The joined text is the parts plus one separator between each neighbouring pair. */
  lemma {:induction false} JoinLength(parts: seq<string>, sep: string)
    requires |parts| > 0
    ensures |Join(parts, sep)| == SumLengths(parts) + (|parts| - 1) * |sep|
  {
    if |parts| > 1 {
      JoinLength(parts[..|parts| - 1], sep);
    } else {
      assert parts[..0] == [];
    }
  }

  /** Joining parts that are themselves joins with the same separator joins the pieces. */
  lemma {:induction false} JoinConcat(a: seq<string>, b: seq<string>, sep: string)
    requires |a| > 0 && |b| > 0
    ensures Join(a + b, sep) == Join(a, sep) + sep + Join(b, sep)
  {
    var ab := a + b;
    if |b| == 1 {
      assert ab[..|ab| - 1] == a;
    } else {
      var b' := b[..|b| - 1];
      assert ab[..|ab| - 1] == a + b';
      JoinConcat(a, b', sep);
    }
  }

  const Then := "; then "

  function Phrases(flights: seq<FlightDetails>): (r: seq<string>)
    ensures |r| == |flights|
    ensures forall i :: 0 <= i < |flights| ==> r[i] == FlightPhrase(flights[i])
  {
    seq(|flights|, i requires 0 <= i < |flights| => FlightPhrase(flights[i]))
  }

  /** The trip as the plan prompt describes it: one phrase per leg, in itinerary order. */
  function FlightSummary(flights: seq<FlightDetails>): (r: string)
    ensures flights == [] ==> r == ""
    ensures flights != [] ==> FlightPhrase(flights[0]) <= r
  {
    Join(Phrases(flights), Then)
  }

  /** A longer itinerary's summary continues the shorter one's after "; then ". */
  lemma SummaryOfJoinedTrips(a: seq<FlightDetails>, b: seq<FlightDetails>)
    requires |a| > 0 && |b| > 0
    ensures FlightSummary(a + b) == FlightSummary(a) + Then + FlightSummary(b)
  {
    assert Phrases(a + b) == Phrases(a) + Phrases(b);
    JoinConcat(Phrases(a), Phrases(b), Then);
  }

  lemma SummaryOfOneFlight(f: FlightDetails)
    ensures FlightSummary([f]) == FlightPhrase(f)
  {
  }

  // ---------------------------------------------------------------- the two requests

  /** How the proxy call settled: rejected (by an abort or a network failure), or
      a reply with its status, first candidate's text and grounding chunks. */
  datatype Call =
    | Rejected(isAbort: bool)
    | Replied(ok: bool, text: Option<string>, chunks: Option<seq<GroundingChunk>>)

  /** A JSON reading of the flight reply: `None` when parsing throws, otherwise the
      `flights` field, itself `None` when absent. */
  type FlightsDecoder = string -> Option<Option<seq<FlightDetails>>>
  type PlanDecoder = string -> Option<JetLagPlan>

  const FlightLookupFailed := "Failed to retrieve flight information. Please check your flight number and try again."
  const PlanFailed := "Failed to generate jet lag plan."

  /** The catch block: an abort, or any failure once the signal is aborted, is reported
      as an abort; every other failure as the operation's generic message. */
  function Caught(isAbort: bool, signalAborted: bool, generic: string): (e: ServiceError)
    ensures e == AbortError <==> isAbort || signalAborted
    ensures e.Failure? ==> e.message == generic
  {
    if isAbort || signalAborted then AbortError else Failure(generic)
  }

  /** searchFlightInfo. `abortedBefore` is the signal on entry, `abortedAtCatch` when
      the catch block reads it. */
  function SearchFlightInfo(inputs: seq<FlightInput>, abortedBefore: bool, call: Call,
                            abortedAtCatch: bool, decode: FlightsDecoder, randomId: nat -> string)
    : (r: Outcome<FlightSearch>)
    ensures abortedBefore ==> r == Err(AbortError)
    ensures r.Err? && r.error.Failure? ==> r.error.message == FlightLookupFailed
    ensures r.Ok? <==> !abortedBefore && call.Replied? && call.ok && decode(ResponseText(call.text)).Some?
    ensures r.Ok? ==>
              var flights := decode(ResponseText(call.text)).value;
              && r.value.flights == RemapIds(if flights.Some? then flights.value else [], inputs, randomId)
              && r.value.sources == (if call.chunks.Some? then GroundedSources(call.chunks.value) else [])
  {
    if abortedBefore then Err(AbortError)
    else match call
      case Rejected(isAbort) => Err(Caught(isAbort, abortedAtCatch, FlightLookupFailed))
      case Replied(ok, text, chunks) =>
        if !ok then Err(Caught(false, abortedAtCatch, FlightLookupFailed))
        else match decode(ResponseText(text))
          case None => Err(Caught(false, abortedAtCatch, FlightLookupFailed))
          case Some(flights) =>
            Ok(FlightSearch(RemapIds(if flights.Some? then flights.value else [], inputs, randomId),
                            if chunks.Some? then GroundedSources(chunks.value) else []))
  }

  /** A reply with no text reads as `{}`, which has no `flights`: the lookup succeeds
      with no flights, and the wizard then reports that none were found. */
  lemma MissingTextGivesNoFlights(inputs: seq<FlightInput>, chunks: Option<seq<GroundingChunk>>,
                                  abortedAtCatch: bool, decode: FlightsDecoder, randomId: nat -> string)
    requires decode(EmptyObject) == Some(None)
    ensures SearchFlightInfo(inputs, false, Replied(true, None, chunks), abortedAtCatch, decode, randomId).Ok?
    ensures SearchFlightInfo(inputs, false, Replied(true, None, chunks), abortedAtCatch, decode, randomId).value.flights == []
  {
  }

  /** generateJetLagPlan. */
  function GenerateJetLagPlan(abortedBefore: bool, call: Call, abortedAtCatch: bool, decode: PlanDecoder)
    : (r: Outcome<JetLagPlan>)
    ensures abortedBefore ==> r == Err(AbortError)
    ensures r.Err? && r.error.Failure? ==> r.error.message == PlanFailed
    ensures r.Ok? <==> !abortedBefore && call.Replied? && call.ok && decode(ResponseText(call.text)).Some?
    ensures r.Ok? ==> r.value == decode(ResponseText(call.text)).value
  {
    if abortedBefore then Err(AbortError)
    else match call
      case Rejected(isAbort) => Err(Caught(isAbort, abortedAtCatch, PlanFailed))
      case Replied(ok, text, _) =>
        if !ok then Err(Caught(false, abortedAtCatch, PlanFailed))
        else match decode(ResponseText(text))
          case None => Err(Caught(false, abortedAtCatch, PlanFailed))
          case Some(plan) => Ok(plan)
  }

  /** A reply without text hands "{}" to the decoder: the plan request then succeeds
      with whatever "{}" decodes to, or fails with the generic message. */
  lemma MissingTextDecodesEmptyObject(abortedAtCatch: bool, chunks: Option<seq<GroundingChunk>>, decode: PlanDecoder)
    ensures GenerateJetLagPlan(false, Replied(true, None, chunks), abortedAtCatch, decode) ==
              match decode(EmptyObject)
              case Some(plan) => Ok(plan)
              case None => Err(Caught(false, abortedAtCatch, PlanFailed))
  {
  }

  /** Whatever went wrong, a request whose signal was aborted by the time it failed
      reports an abort, so the wizard shows no error for it. */
  lemma AbortedFailuresAreAborts(inputs: seq<FlightInput>, call: Call, decode: FlightsDecoder,
                                 randomId: nat -> string)
    ensures SearchFlightInfo(inputs, false, call, true, decode, randomId).Err? ==>
              SearchFlightInfo(inputs, false, call, true, decode, randomId).error == AbortError
  {
  }
}
