/** The itinerary entry form: an automatic mode (flight number and date per leg)
    and a manual mode (every leg keyed in), each holding a list of rows the
    handlers add to, remove from and edit, and the payload built on submit. */
module FlightForm {
  import opened Types
  import Lists

  datatype Mode = Auto | Manual

  /** The link under the form switches to the other mode. */
  function Toggled(m: Mode): (r: Mode)
    ensures r != m
  {
    match m
    case Auto => Manual
    case Manual => Auto
  }

  lemma ToggleTwiceIsIdentity(m: Mode)
    ensures Toggled(Toggled(m)) == m
  {
  }

  // ---------------------------------------------------------------- rows

  datatype AutoEntry = AutoEntry(id: string, flightNumber: string, date: string)

  datatype ManualEntry = ManualEntry(
    id: string,
    flightNumber: string,
    origin: string,
    destination: string,
    departureTime: string,
    arrivalTime: string)

  function AutoId(e: AutoEntry): string { e.id }
  function ManualId(e: ManualEntry): string { e.id }

  function BlankAuto(id: string): AutoEntry {
    AutoEntry(id, "", "")
  }

  function BlankManual(id: string): ManualEntry {
    ManualEntry(id, "", "", "", "", "")
  }

  /** The two fields an automatic row's inputs edit. */
  datatype AutoField = NumberField | DateField

  /** Every key of a manual row, `id` included, as the handler's type allows. */
  datatype ManualField = ManualIdField | ManualNumberField | OriginField | DestinationField
                       | DepartureField | ArrivalField

  function AutoFieldValue(e: AutoEntry, field: AutoField): string {
    match field
    case NumberField => e.flightNumber
    case DateField => e.date
  }

  function SetAutoField(e: AutoEntry, field: AutoField, value: string): (r: AutoEntry)
    ensures AutoFieldValue(r, field) == value
    ensures forall g :: g != field ==> AutoFieldValue(r, g) == AutoFieldValue(e, g)
    ensures r.id == e.id
  {
    match field
    case NumberField => e.(flightNumber := value)
    case DateField => e.(date := value)
  }

  function ManualFieldValue(e: ManualEntry, field: ManualField): string {
    match field
    case ManualIdField => e.id
    case ManualNumberField => e.flightNumber
    case OriginField => e.origin
    case DestinationField => e.destination
    case DepartureField => e.departureTime
    case ArrivalField => e.arrivalTime
  }

  function SetManualField(e: ManualEntry, field: ManualField, value: string): (r: ManualEntry)
    ensures ManualFieldValue(r, field) == value
    ensures forall g :: g != field ==> ManualFieldValue(r, g) == ManualFieldValue(e, g)
    ensures field != ManualIdField ==> r.id == e.id
  {
    match field
    case ManualIdField => e.(id := value)
    case ManualNumberField => e.(flightNumber := value)
    case OriginField => e.(origin := value)
    case DestinationField => e.(destination := value)
    case DepartureField => e.(departureTime := value)
    case ArrivalField => e.(arrivalTime := value)
  }

  // ---------------------------------------------------------------- list operations

  /** removeFlight / removeManualFlight: a one-row list is left alone; otherwise every row
      with the id goes and the others stay in order. */
  function RemoveRow<T>(rows: seq<T>, key: T -> string, id: string): (r: seq<T>)
    ensures |rows| <= 1 ==> r == rows
    ensures |rows| > 1 ==> r == Lists.RemoveKey(rows, key, id)
    ensures forall i :: 0 <= i < |r| ==> r[i] in rows
    ensures |rows| > 1 ==> forall i :: 0 <= i < |r| ==> key(r[i]) != id
  {
    if |rows| > 1 then Lists.RemoveKey(rows, key, id) else rows
  }

  /** When ids are unique, removal never empties the list: the one-row guard and the
      single matching row together leave at least one row, and the ids stay unique. */
  lemma RemoveRowKeepsOne<T>(rows: seq<T>, key: T -> string, id: string)
    requires |rows| >= 1 && Lists.UniqueKeys(rows, key)
    ensures |RemoveRow(rows, key, id)| >= 1
    ensures |RemoveRow(rows, key, id)| == if |rows| > 1 && Lists.HasKey(rows, key, id) then |rows| - 1 else |rows|
    ensures Lists.UniqueKeys(RemoveRow(rows, key, id), key)
  {
    if |rows| > 1 {
      Lists.RemoveUniqueKey(rows, key, id);
    }
  }

  /** The guard alone does not protect a list whose ids repeat: two rows that share
      an id both go, leaving nothing. */
  lemma DuplicateIdsEmptyTheList()
    ensures RemoveRow([BlankAuto("7"), BlankAuto("7")], AutoId, "7") == []
  {
    var rows := [BlankAuto("7"), BlankAuto("7")];
    Lists.RemoveKeyCons(rows, AutoId, "7");
    Lists.RemoveKeyCons(rows[1..], AutoId, "7");
    assert rows[1..][1..] == [];
  }

  /** updateFlight: the named field of the rows with the id changes; nothing else does. */
  function UpdateAutoRows(rows: seq<AutoEntry>, id: string, field: AutoField, value: string): (r: seq<AutoEntry>)
    ensures |r| == |rows|
    ensures forall i :: 0 <= i < |rows| && rows[i].id != id ==> r[i] == rows[i]
    ensures forall i :: 0 <= i < |rows| && rows[i].id == id ==>
              r[i].id == id && AutoFieldValue(r[i], field) == value
              && forall g :: g != field ==> AutoFieldValue(r[i], g) == AutoFieldValue(rows[i], g)
  {
    Lists.UpdateWhere(rows, (e: AutoEntry) => e.id == id, (e: AutoEntry) => SetAutoField(e, field, value))
  }

  /** updateManualFlight: the same for manual rows. */
  function UpdateManualRows(rows: seq<ManualEntry>, id: string, field: ManualField, value: string): (r: seq<ManualEntry>)
    ensures |r| == |rows|
    ensures forall i :: 0 <= i < |rows| && rows[i].id != id ==> r[i] == rows[i]
    ensures forall i :: 0 <= i < |rows| && rows[i].id == id ==>
              ManualFieldValue(r[i], field) == value
              && forall g :: g != field ==> ManualFieldValue(r[i], g) == ManualFieldValue(rows[i], g)
  {
    Lists.UpdateWhere(rows, (e: ManualEntry) => e.id == id, (e: ManualEntry) => SetManualField(e, field, value))
  }

  lemma UpdateAutoKeepsIds(rows: seq<AutoEntry>, id: string, field: AutoField, value: string)
    requires Lists.UniqueKeys(rows, AutoId)
    ensures Lists.UniqueKeys(UpdateAutoRows(rows, id, field, value), AutoId)
  {
    var r := UpdateAutoRows(rows, id, field, value);
    assert forall i :: 0 <= i < |rows| ==> AutoId(r[i]) == AutoId(rows[i]);
  }

  lemma UpdateManualKeepsIds(rows: seq<ManualEntry>, id: string, field: ManualField, value: string)
    requires Lists.UniqueKeys(rows, ManualId)
    requires field != ManualIdField
    ensures Lists.UniqueKeys(UpdateManualRows(rows, id, field, value), ManualId)
  {
    var r := UpdateManualRows(rows, id, field, value);
    assert forall i :: 0 <= i < |rows| ==> ManualId(r[i]) == ManualId(rows[i]);
  }

  // ---------------------------------------------------------------- submit payloads

  /** The lookup request: one input per row, same order, id, number and date copied. */
  function AutoPayload(rows: seq<AutoEntry>): (r: seq<FlightInput>)
    ensures |r| == |rows|
    ensures forall i :: 0 <= i < |rows| ==>
              r[i].id == rows[i].id && r[i].flightNumber == rows[i].flightNumber && r[i].date == rows[i].date
  {
    if rows == [] then []
    else [FlightInput(rows[0].id, rows[0].flightNumber, rows[0].date)] + AutoPayload(rows[1..])
  }

  function EntryOfInput(input: FlightInput): AutoEntry {
    AutoEntry(input.id, input.flightNumber, input.date)
  }

  /** Nothing is lost: the rows can be read back from the request. */
  lemma AutoPayloadRoundTrip(rows: seq<AutoEntry>)
    ensures seq(|rows|, i requires 0 <= i < |rows| => EntryOfInput(AutoPayload(rows)[i])) == rows
  {
  }

  const NoFlightNumber := "N/A"
  const ManualDuration := "Manual Entry"
  const ManualAirline := "Manual"

  /** The manual itinerary: same order and fields; an empty number becomes "N/A",
      and every leg is marked as a manual entry by the airline "Manual". */
  function ManualPayload(rows: seq<ManualEntry>): (r: seq<FlightDetails>)
    ensures |r| == |rows|
    ensures forall i :: 0 <= i < |rows| ==>
              && r[i].id == rows[i].id
              && r[i].origin == rows[i].origin && r[i].destination == rows[i].destination
              && r[i].departureTime == rows[i].departureTime && r[i].arrivalTime == rows[i].arrivalTime
              && r[i].duration == ManualDuration && r[i].airline == Some(ManualAirline)
              && (rows[i].flightNumber != "" ==> r[i].flightNumber == rows[i].flightNumber)
              && (rows[i].flightNumber == "" ==> r[i].flightNumber == NoFlightNumber)
  {
    if rows == [] then []
    else
      var e := rows[0];
      [FlightDetails(e.id, if e.flightNumber != "" then e.flightNumber else NoFlightNumber,
                     e.origin, e.destination, e.departureTime, e.arrivalTime,
                     ManualDuration, Some(ManualAirline))]
      + ManualPayload(rows[1..])
  }

  /** Every submitted manual leg carries a non-empty flight number. */
  lemma ManualPayloadNumbered(rows: seq<ManualEntry>)
    ensures forall i :: 0 <= i < |rows| ==> ManualPayload(rows)[i].flightNumber != ""
  {
  }

  /** `flights.every(f => f.flightNumber)`. */
  function AllNumbered(rows: seq<AutoEntry>): (b: bool)
    ensures rows == [] ==> b
    ensures b ==> forall k :: 0 <= k <= |rows| ==> AllNumbered(rows[..k])
  {
    forall i :: 0 <= i < |rows| ==> rows[i].flightNumber != ""
  }

  datatype SubmitOutcome =
    | SearchRequested(inputs: seq<FlightInput>)
    | ManualSubmitted(flights: seq<FlightDetails>)
    | Alerted(message: string)
    | NothingSent
    | ThrewTypeError   // reading the first row of an empty list

  const FirstDateMissing := "Please enter a date for the first flight."

  // ---------------------------------------------------------------- the form

  class Form {
    var mode: Mode
    var flights: seq<AutoEntry>
    var manualFlights: seq<ManualEntry>

    /** Both lists non-empty with unique ids: what the handlers keep when ids are fresh. */
    predicate WellFormed()
      reads this
    {
      |flights| >= 1 && |manualFlights| >= 1
      && Lists.UniqueKeys(flights, AutoId) && Lists.UniqueKeys(manualFlights, ManualId)
    }

    /** Automatic mode, each list holding one blank row with id "1". */
    constructor ()
      ensures mode == Auto
      ensures flights == [BlankAuto("1")] && manualFlights == [BlankManual("1")]
      ensures WellFormed()
    {
      mode := Auto;
      flights := [BlankAuto("1")];
      manualFlights := [BlankManual("1")];
    }

    method ToggleMode()
      modifies this
      ensures mode == Toggled(old(mode))
      ensures flights == old(flights) && manualFlights == old(manualFlights)
    {
      mode := Toggled(mode);
    }

    /** addFlight: `newId` stands for the clock reading the source uses as an id. */
    method AddFlight(newId: string)
      modifies this
      ensures flights == old(flights) + [BlankAuto(newId)]
      ensures mode == old(mode) && manualFlights == old(manualFlights)
      ensures old(WellFormed()) && !Lists.HasKey(old(flights), AutoId, newId) ==> WellFormed()
    {
      if WellFormed() && !Lists.HasKey(flights, AutoId, newId) {
        Lists.AppendFreshKey(flights, AutoId, BlankAuto(newId));
      }
      flights := flights + [BlankAuto(newId)];
    }

    method RemoveFlight(id: string)
      modifies this
      ensures flights == RemoveRow(old(flights), AutoId, id)
      ensures mode == old(mode) && manualFlights == old(manualFlights)
      ensures old(WellFormed()) ==> WellFormed()
    {
      if WellFormed() {
        RemoveRowKeepsOne(flights, AutoId, id);
      }
      if |flights| > 1 {
        flights := Lists.RemoveKey(flights, AutoId, id);
      }
    }

    method UpdateFlight(id: string, field: AutoField, value: string)
      modifies this
      ensures flights == UpdateAutoRows(old(flights), id, field, value)
      ensures mode == old(mode) && manualFlights == old(manualFlights)
      ensures old(WellFormed()) ==> WellFormed()
    {
      if WellFormed() {
        UpdateAutoKeepsIds(flights, id, field, value);
      }
      flights := UpdateAutoRows(flights, id, field, value);
    }

    method AddManualFlight(newId: string)
      modifies this
      ensures manualFlights == old(manualFlights) + [BlankManual(newId)]
      ensures mode == old(mode) && flights == old(flights)
      ensures old(WellFormed()) && !Lists.HasKey(old(manualFlights), ManualId, newId) ==> WellFormed()
    {
      if WellFormed() && !Lists.HasKey(manualFlights, ManualId, newId) {
        Lists.AppendFreshKey(manualFlights, ManualId, BlankManual(newId));
      }
      manualFlights := manualFlights + [BlankManual(newId)];
    }

    method RemoveManualFlight(id: string)
      modifies this
      ensures manualFlights == RemoveRow(old(manualFlights), ManualId, id)
      ensures mode == old(mode) && flights == old(flights)
      ensures old(WellFormed()) ==> WellFormed()
    {
      if WellFormed() {
        RemoveRowKeepsOne(manualFlights, ManualId, id);
      }
      if |manualFlights| > 1 {
        manualFlights := Lists.RemoveKey(manualFlights, ManualId, id);
      }
    }

    method UpdateManualFlight(id: string, field: ManualField, value: string)
      modifies this
      ensures manualFlights == UpdateManualRows(old(manualFlights), id, field, value)
      ensures mode == old(mode) && flights == old(flights)
      ensures old(WellFormed()) && field != ManualIdField ==> WellFormed()
    {
      if WellFormed() && field != ManualIdField {
        UpdateManualKeepsIds(manualFlights, id, field, value);
      }
      manualFlights := UpdateManualRows(manualFlights, id, field, value);
    }

    /** handleSubmit: what leaves the form. In automatic mode a missing first date is
        reported, and the lookup is requested only when every row has a number. */
    method HandleSubmit() returns (outcome: SubmitOutcome)
      ensures mode == Auto && flights == [] ==> outcome == ThrewTypeError
      ensures mode == Auto && flights != [] && flights[0].date == "" ==> outcome == Alerted(FirstDateMissing)
      ensures mode == Auto && flights != [] && flights[0].date != "" ==>
                outcome == if AllNumbered(flights) then SearchRequested(AutoPayload(flights)) else NothingSent
      ensures mode == Manual ==> outcome == ManualSubmitted(ManualPayload(manualFlights))
      ensures WellFormed() ==> outcome != ThrewTypeError
    {
      if mode == Auto {
        if |flights| == 0 {
          return ThrewTypeError;
        }
        if flights[0].date == "" {
          return Alerted(FirstDateMissing);
        }
        if AllNumbered(flights) {
          outcome := SearchRequested(AutoPayload(flights));
        } else {
          outcome := NothingSent;
        }
      } else {
        outcome := ManualSubmitted(ManualPayload(manualFlights));
      }
    }
  }
}
