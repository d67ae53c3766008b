/** The flight review screen: airport codes read out of free-text locations,
    the continuity check over adjacent legs, and in-place editing of a leg. */
module Itinerary {
  import opened Types
  import Lists

  // ---------------------------------------------------------------- airport codes

  predicate IsUpper(c: char) {
    'A' <= c <= 'Z'
  }

  /** The pattern `\(([A-Z]{3})\)` matches at index `i` of `s`. */
  predicate CodeAt(s: string, i: nat) {
    i + 5 <= |s| && s[i] == '(' && IsUpper(s[i + 1]) && IsUpper(s[i + 2]) && IsUpper(s[i + 3])
    && s[i + 4] == ')'
  }

  /** The leftmost match at or after `from`. */
  function FindCode(s: string, from: nat): (r: Option<nat>)
    decreases |s| - from
    ensures r.Some? ==> from <= r.value && CodeAt(s, r.value)
    ensures r.Some? ==> forall j :: from <= j < r.value ==> !CodeAt(s, j)
    ensures r.None? ==> forall j :: from <= j ==> !CodeAt(s, j)
  {
    if |s| < from + 5 then None
    else if CodeAt(s, from) then Some(from)
    else FindCode(s, from + 1)
  }

  /** The three letters of the first "(XYZ)" in `s`, or nothing when there is none. */
  function AirportCode(s: string): (r: Option<string>)
    ensures r.Some? ==> |r.value| == 3
  {
    match FindCode(s, 0)
    case None => None
    case Some(i) => Some(s[i + 1..i + 4])
  }

  /** A code is found exactly when the pattern occurs; it is three upper-case letters taken
      from the leftmost occurrence. */
  lemma AirportCodeSpec(s: string)
    ensures AirportCode(s).Some? <==> exists i: nat :: CodeAt(s, i)
    ensures AirportCode(s).Some? ==>
              var c := AirportCode(s).value;
              |c| == 3 && IsUpper(c[0]) && IsUpper(c[1]) && IsUpper(c[2])
    ensures AirportCode(s).Some? ==>
              exists i: nat :: CodeAt(s, i) && AirportCode(s).value == s[i + 1..i + 4]
                               && forall j :: 0 <= j < i ==> !CodeAt(s, j)
  {
    var r := FindCode(s, 0);
    if r.Some? {
      var i := r.value;
      assert CodeAt(s, i) && AirportCode(s).value == s[i + 1..i + 4];
    }
  }

  /** A match at `k` with none before it is the code that is reported. */
  lemma FirstMatchIsReported(s: string, k: nat)
    requires CodeAt(s, k)
    requires forall j :: 0 <= j < k ==> !CodeAt(s, j)
    ensures AirportCode(s) == Some(s[k + 1..k + 4])
  {
    AirportCodeSpec(s);
  }

  lemma AirportCodeExamples()
    ensures AirportCode("London (LHR)") == Some("LHR")
    ensures AirportCode("(LHR) then (JFK)") == Some("LHR")
  {
    var london := "London (LHR)";
    forall j | 0 <= j < 7 ensures !CodeAt(london, j) {
      assert london[j] != '(';
    }
    FirstMatchIsReported(london, 7);
    assert london[8..11] == "LHR";
    var twice := "(LHR) then (JFK)";
    FirstMatchIsReported(twice, 0);
    assert twice[1..4] == "LHR";
  }

  /** Lower-case letters, two or four letters, or no parentheses: no code. */
  lemma AirportCodeRejects()
    ensures AirportCode("London (lhr)") == None
    ensures AirportCode("London (LH)") == None
    ensures AirportCode("London (LHRX)") == None
    ensures AirportCode("London") == None
  {
    var lower := "London (lhr)";
    forall i: nat ensures !CodeAt(lower, i) {
    }
    var short := "London (LH)";
    forall i: nat ensures !CodeAt(short, i) {
    }
    var long := "London (LHRX)";
    forall i: nat ensures !CodeAt(long, i) {
    }
    var bare := "London";
    forall i: nat ensures !CodeAt(bare, i) {
    }
  }

  // ---------------------------------------------------------------- continuity warnings

  /** A continuity warning; the review screen lists the `Message` of each. */
  datatype Warning =
    | ConnectionIssue(currentFlight: string, nextFlight: string)
    | LocationMismatch(currentFlight: string, arrivesIn: string, nextFlight: string, departsFrom: string)

  function Message(w: Warning): (r: string)
    ensures w.ConnectionIssue? ==> "Connection Issue: " <= r
    ensures w.LocationMismatch? ==> "Location Mismatch: " <= r
  {
    match w
    case ConnectionIssue(cur, nxt) =>
      "Connection Issue: Flight " + nxt + " departs before " + cur + " arrives."
    case LocationMismatch(cur, a, nxt, b) =>
      "Location Mismatch: Flight " + cur + " arrives in " + a + ", but Flight " + nxt + " departs from " + b + "."
  }

  function Messages(ws: seq<Warning>): (r: seq<string>)
    ensures |r| == |ws|
    ensures forall k :: 0 <= k < |ws| ==> r[k] == Message(ws[k])
  {
    if ws == [] then [] else [Message(ws[0])] + Messages(ws[1..])
  }

  /** The next leg leaves strictly before the current one lands; an unparsable time never does. */
  function DepartsBeforeArrival(current: FlightDetails, next: FlightDetails, parse: DateParser): (b: bool)
    ensures parse(current.arrivalTime).None? || parse(next.departureTime).None? ==> !b
    ensures b ==> parse(next.departureTime).value.epochMs != parse(current.arrivalTime).value.epochMs
  {
    var arrival := parse(current.arrivalTime);
    var departure := parse(next.departureTime);
    arrival.Some? && departure.Some? && departure.value.epochMs < arrival.value.epochMs
  }

  /** Both locations carry a code and the codes differ. */
  function CodesDiffer(current: FlightDetails, next: FlightDetails): (b: bool)
    ensures b ==> current.destination != next.origin
  {
    var a := AirportCode(current.destination);
    var b := AirportCode(next.origin);
    a.Some? && b.Some? && a.value != b.value
  }

  /** The warnings one adjacent pair contributes: the time check first, then the location check. */
  function PairWarnings(current: FlightDetails, next: FlightDetails, parse: DateParser): (r: seq<Warning>)
    ensures |r| <= 2
    ensures r == [] <==> !DepartsBeforeArrival(current, next, parse) && !CodesDiffer(current, next)
  {
    (if DepartsBeforeArrival(current, next, parse)
     then [ConnectionIssue(current.flightNumber, next.flightNumber)] else [])
    + (if CodesDiffer(current, next)
       then [LocationMismatch(current.flightNumber, AirportCode(current.destination).value,
                              next.flightNumber, AirportCode(next.origin).value)]
       else [])
  }

  /** A pair reports a connection issue exactly when the next leg leaves strictly before
      the current one lands, and a location mismatch exactly when both codes are found and
      differ; the connection issue comes first. */
  lemma PairWarningsSpec(current: FlightDetails, next: FlightDetails, parse: DateParser)
    ensures |PairWarnings(current, next, parse)| ==
              (if DepartsBeforeArrival(current, next, parse) then 1 else 0) + (if CodesDiffer(current, next) then 1 else 0)
    ensures (exists k :: 0 <= k < |PairWarnings(current, next, parse)| && PairWarnings(current, next, parse)[k].ConnectionIssue?)
            <==> DepartsBeforeArrival(current, next, parse)
    ensures (exists k :: 0 <= k < |PairWarnings(current, next, parse)| && PairWarnings(current, next, parse)[k].LocationMismatch?)
            <==> CodesDiffer(current, next)
    ensures DepartsBeforeArrival(current, next, parse) ==>
              PairWarnings(current, next, parse)[0] == ConnectionIssue(current.flightNumber, next.flightNumber)
    ensures CodesDiffer(current, next) ==>
              var r := PairWarnings(current, next, parse);
              r[|r| - 1] == LocationMismatch(current.flightNumber, AirportCode(current.destination).value,
                                             next.flightNumber, AirportCode(next.origin).value)
  {
    var r := PairWarnings(current, next, parse);
    if DepartsBeforeArrival(current, next, parse) {
      assert r[0].ConnectionIssue?;
    }
    if CodesDiffer(current, next) {
      assert r[|r| - 1].LocationMismatch?;
    }
  }

  /** Legs that connect at the same instant are not a connection issue. */
  lemma SameInstantIsNoConnectionIssue(current: FlightDetails, next: FlightDetails, parse: DateParser)
    requires parse(current.arrivalTime).Some? && parse(next.departureTime).Some?
    requires parse(current.arrivalTime).value.epochMs == parse(next.departureTime).value.epochMs
    ensures !DepartsBeforeArrival(current, next, parse)
  {
  }

  /** The warnings for the whole itinerary: pair (0,1), then (1,2), and so on. */
  function Warnings(flights: seq<FlightDetails>, parse: DateParser): (r: seq<Warning>)
    ensures |flights| <= 1 ==> r == []
  {
    if |flights| < 2 then []
    else Warnings(flights[..|flights| - 1], parse) + PairWarnings(flights[|flights| - 2], flights[|flights| - 1], parse)
  }

  /** A pair has something to report. */
  predicate PairIsInconsistent(flights: seq<FlightDetails>, i: nat, parse: DateParser)
    requires i + 1 < |flights|
  {
    DepartsBeforeArrival(flights[i], flights[i + 1], parse) || CodesDiffer(flights[i], flights[i + 1])
  }

  /** At most two warnings per adjacent pair. */
  lemma {:induction false} WarningsBound(flights: seq<FlightDetails>, parse: DateParser)
    requires |flights| >= 1
    ensures |Warnings(flights, parse)| <= 2 * (|flights| - 1)
  {
    if |flights| >= 2 {
      WarningsBound(flights[..|flights| - 1], parse);
      PairWarningsSpec(flights[|flights| - 2], flights[|flights| - 1], parse);
    }
  }

  /** Taking one more leg adds the warnings of the new last pair. */
  lemma WarningsStep(flights: seq<FlightDetails>, i: nat, parse: DateParser)
    requires i + 1 < |flights|
    ensures Warnings(flights[..i + 2], parse) ==
              Warnings(flights[..i + 1], parse) + PairWarnings(flights[i], flights[i + 1], parse)
  {
    var p := flights[..i + 2];
    assert p[..|p| - 1] == flights[..i + 1];
    assert p[|p| - 2] == flights[i] && p[|p| - 1] == flights[i + 1];
  }

  /** Dropping the last leg keeps the earlier pairs as they were. */
  lemma PairsOfPrefix(flights: seq<FlightDetails>, parse: DateParser)
    requires |flights| >= 2
    ensures forall i :: 0 <= i < |flights| - 2 ==>
              (PairIsInconsistent(flights[..|flights| - 1], i, parse) <==> PairIsInconsistent(flights, i, parse))
  {
    var init := flights[..|flights| - 1];
    forall i | 0 <= i < |flights| - 2
      ensures PairIsInconsistent(init, i, parse) <==> PairIsInconsistent(flights, i, parse)
    {
      assert init[i] == flights[i] && init[i + 1] == flights[i + 1];
    }
  }

  /** No warning at all exactly when no adjacent pair is inconsistent. */
  lemma {:induction false} WarningsEmptyIff(flights: seq<FlightDetails>, parse: DateParser)
    ensures Warnings(flights, parse) == [] <==>
              forall i :: 0 <= i < |flights| - 1 ==> !PairIsInconsistent(flights, i, parse)
  {
    if |flights| >= 2 {
      var n := |flights|;
      WarningsEmptyIff(flights[..n - 1], parse);
      PairsOfPrefix(flights, parse);
      PairWarningsSpec(flights[n - 2], flights[n - 1], parse);
      var last := PairWarnings(flights[n - 2], flights[n - 1], parse);
      assert Warnings(flights, parse) == Warnings(flights[..n - 1], parse) + last;
      assert last == [] <==> !PairIsInconsistent(flights, n - 2, parse);
      assert |flights[..n - 1]| == n - 1;
      if Warnings(flights, parse) == [] {
        forall i | 0 <= i < n - 1 ensures !PairIsInconsistent(flights, i, parse) {
          if i < n - 2 {
            assert !PairIsInconsistent(flights[..n - 1], i, parse);
          }
        }
      } else if last == [] {
        var i :| 0 <= i < n - 2 && PairIsInconsistent(flights[..n - 1], i, parse);
        assert PairIsInconsistent(flights, i, parse);
      } else {
        assert PairIsInconsistent(flights, n - 2, parse);
      }
    }
  }

  /** The definition of `Warnings` unfolded once. */
  lemma WarningsOfLastPair(flights: seq<FlightDetails>, parse: DateParser)
    requires |flights| >= 2
    ensures Warnings(flights, parse) ==
              Warnings(flights[..|flights| - 1], parse) + PairWarnings(flights[|flights| - 2], flights[|flights| - 1], parse)
  {
  }

  lemma ConcatSingle(a: seq<FlightDetails>, b: seq<FlightDetails>, parse: DateParser)
    requires |a| >= 1 && |b| == 1
    ensures Warnings(a + b, parse) == Warnings(a, parse) + PairWarnings(a[|a| - 1], b[0], parse)
  {
    var ab := a + b;
    WarningsOfLastPair(ab, parse);
    assert ab[..|ab| - 1] == a;
    assert ab[|ab| - 2] == a[|a| - 1] && ab[|ab| - 1] == b[0];
  }

  lemma ConcatDropLast(a: seq<FlightDetails>, b: seq<FlightDetails>, parse: DateParser)
    requires |a| >= 1 && |b| >= 2
    ensures Warnings(a + b, parse) ==
              Warnings(a + b[..|b| - 1], parse) + PairWarnings(b[|b| - 2], b[|b| - 1], parse)
  {
    var ab := a + b;
    WarningsOfLastPair(ab, parse);
    Lists.DropLastOfConcat(a, b);
    Lists.LastTwoOfConcat(a, b);
  }

  /** Joining two itineraries adds exactly the warnings of the new seam pair. */
  lemma {:induction false} WarningsConcat(a: seq<FlightDetails>, b: seq<FlightDetails>, parse: DateParser)
    requires |a| >= 1 && |b| >= 1
    ensures Warnings(a + b, parse) ==
              Warnings(a, parse) + PairWarnings(a[|a| - 1], b[0], parse) + Warnings(b, parse)
  {
    if |b| == 1 {
      ConcatSingle(a, b, parse);
    } else {
      var b' := b[..|b| - 1];
      var seam := PairWarnings(a[|a| - 1], b[0], parse);
      var tail := PairWarnings(b[|b| - 2], b[|b| - 1], parse);
      WarningsConcat(a, b', parse);
      ConcatDropLast(a, b, parse);
      assert b'[0] == b[0];
      assert Warnings(b, parse) == Warnings(b', parse) + tail;
      Regroup(Warnings(a + b, parse), Warnings(a + b', parse), Warnings(a, parse), seam,
              Warnings(b', parse), Warnings(b, parse), tail);
    }
  }

  /** Regrouping a concatenation that grew by the same tail on both sides. */
  lemma Regroup(whole: seq<Warning>, shorter: seq<Warning>, left: seq<Warning>, seam: seq<Warning>,
                right: seq<Warning>, right': seq<Warning>, tail: seq<Warning>)
    requires whole == shorter + tail && shorter == left + seam + right && right' == right + tail
    ensures whole == left + seam + right'
  {
  }

  /** A pair's warnings in terms of the two codes as the loop reads them. */
  lemma PairWarningsUnfold(current: FlightDetails, next: FlightDetails, parse: DateParser,
                           a: Option<string>, b: Option<string>)
    requires a == AirportCode(current.destination) && b == AirportCode(next.origin)
    ensures PairWarnings(current, next, parse) ==
              (if DepartsBeforeArrival(current, next, parse)
               then [ConnectionIssue(current.flightNumber, next.flightNumber)] else [])
              + (if a.Some? && b.Some? && a.value != b.value
                 then [LocationMismatch(current.flightNumber, a.value, next.flightNumber, b.value)] else [])
  {
  }

  /** The check of FlightConfirmation: one pass over the adjacent pairs, collecting warnings. */
  method CheckContinuity(flights: seq<FlightDetails>, parse: DateParser) returns (warnings: seq<Warning>)
    ensures warnings == Warnings(flights, parse)
  {
    warnings := [];
    var i := 0;
    while i < |flights| - 1
      invariant 0 <= i
      invariant |flights| == 0 ==> i == 0 && warnings == []
      invariant |flights| > 0 ==> i < |flights| && warnings == Warnings(flights[..i + 1], parse)
    {
      var current := flights[i];
      var next := flights[i + 1];
      ghost var before := warnings;
      if DepartsBeforeArrival(current, next, parse) {
        warnings := warnings + [ConnectionIssue(current.flightNumber, next.flightNumber)];
      }
      var currentDestCode := AirportCode(current.destination);
      var nextOriginCode := AirportCode(next.origin);
      if currentDestCode.Some? && nextOriginCode.Some? && currentDestCode.value != nextOriginCode.value {
        warnings := warnings + [LocationMismatch(current.flightNumber, currentDestCode.value,
                                                 next.flightNumber, nextOriginCode.value)];
      }
      assert warnings == before + PairWarnings(current, next, parse) by {
        PairWarningsUnfold(current, next, parse, currentDestCode, nextOriginCode);
      }
      assert warnings == Warnings(flights[..i + 2], parse) by {
        WarningsStep(flights, i, parse);
      }
      i := i + 1;
    }
    if |flights| > 0 {
      assert flights[..i + 1] == flights;
    }
  }

  /** The confirm button's caption. */
  function ConfirmLabel(warnings: seq<Warning>): (caption: string)
    ensures caption == "Ignore Warnings & Confirm" <==> |warnings| > 0
    ensures caption == "Yes, this is correct" <==> |warnings| == 0
  {
    if |warnings| > 0 then "Ignore Warnings & Confirm" else "Yes, this is correct"
  }

  /** The caption asks to ignore warnings exactly when some adjacent pair is inconsistent. */
  lemma ConfirmLabelReflectsItinerary(flights: seq<FlightDetails>, parse: DateParser)
    ensures ConfirmLabel(Warnings(flights, parse)) == "Ignore Warnings & Confirm" <==>
              exists i :: 0 <= i < |flights| - 1 && PairIsInconsistent(flights, i, parse)
  {
    WarningsEmptyIff(flights, parse);
  }

  // ---------------------------------------------------------------- editing a leg

  /** The keys of a flight record an edit may name. */
  datatype DetailField = IdField | FlightNumberField | OriginField | DestinationField
                       | DepartureField | ArrivalField | DurationField | AirlineField

  function FieldValue(f: FlightDetails, field: DetailField): Option<string> {
    match field
    case IdField => Some(f.id)
    case FlightNumberField => Some(f.flightNumber)
    case OriginField => Some(f.origin)
    case DestinationField => Some(f.destination)
    case DepartureField => Some(f.departureTime)
    case ArrivalField => Some(f.arrivalTime)
    case DurationField => Some(f.duration)
    case AirlineField => f.airline
  }

  /** `{ ...f, [field]: value }`: the named field becomes `value`, every other field stays. */
  function WithField(f: FlightDetails, field: DetailField, value: string): (r: FlightDetails)
    ensures FieldValue(r, field) == Some(value)
    ensures forall g :: g != field ==> FieldValue(r, g) == FieldValue(f, g)
  {
    match field
    case IdField => f.(id := value)
    case FlightNumberField => f.(flightNumber := value)
    case OriginField => f.(origin := value)
    case DestinationField => f.(destination := value)
    case DepartureField => f.(departureTime := value)
    case ArrivalField => f.(arrivalTime := value)
    case DurationField => f.(duration := value)
    case AirlineField => f.(airline := Some(value))
  }

  /** handleUpdate: set one field of the legs whose id matches; the list keeps its length and order. */
  function UpdateLeg(flights: seq<FlightDetails>, id: string, field: DetailField, value: string): (r: seq<FlightDetails>)
    ensures |r| == |flights|
    ensures forall i :: 0 <= i < |flights| && flights[i].id != id ==> r[i] == flights[i]
    ensures forall i, g :: 0 <= i < |flights| && flights[i].id == id ==>
              FieldValue(r[i], g) == if g == field then Some(value) else FieldValue(flights[i], g)
  {
    Lists.UpdateWhere(flights, (f: FlightDetails) => f.id == id, (f: FlightDetails) => WithField(f, field, value))
  }

  /** Two records that agree on every field are the same record. */
  lemma FieldsDetermineFlight(f: FlightDetails, g: FlightDetails)
    requires forall field :: FieldValue(f, field) == FieldValue(g, field)
    ensures f == g
  {
    assert FieldValue(f, IdField) == FieldValue(g, IdField);
    assert FieldValue(f, FlightNumberField) == FieldValue(g, FlightNumberField);
    assert FieldValue(f, OriginField) == FieldValue(g, OriginField);
    assert FieldValue(f, DestinationField) == FieldValue(g, DestinationField);
    assert FieldValue(f, DepartureField) == FieldValue(g, DepartureField);
    assert FieldValue(f, ArrivalField) == FieldValue(g, ArrivalField);
    assert FieldValue(f, DurationField) == FieldValue(g, DurationField);
    assert FieldValue(f, AirlineField) == FieldValue(g, AirlineField);
  }

  /** Writing back the value a field already holds changes nothing. */
  lemma UpdateWithSameValueIsIdentity(flights: seq<FlightDetails>, id: string, field: DetailField, v: string)
    requires forall i :: 0 <= i < |flights| && flights[i].id == id ==> FieldValue(flights[i], field) == Some(v)
    ensures UpdateLeg(flights, id, field, v) == flights
  {
    var r := UpdateLeg(flights, id, field, v);
    forall i | 0 <= i < |flights| ensures r[i] == flights[i] {
      if flights[i].id == id {
        FieldsDetermineFlight(r[i], flights[i]);
      }
    }
  }
}
