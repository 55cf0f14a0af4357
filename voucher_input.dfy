/** The voucher payload rules that the service's `createVoucher` and the older
    `POST /admin/vouchers` route both apply: the validation chain after the
    agency check, the mapping of submitted flights to rows, and the optional
    hotel and transfer rows. */
module VoucherInput {
  import opened Js
  import opened Flights
  import opened Db

  /** `flights.some((f) => f?.direction === direction)`. */
  predicate HasDirection(items: seq<Value>, direction: string) {
    exists i :: 0 <= i < |items| && Field(items[i], "direction") == Str(direction)
  }

  /** The checks after the agency check, first failure wins; absent when the
      payload passes. */
  function PayloadError(reservationCode: Value, clientName: Value, flights: Value): (r: Option<string>)
    ensures r.None? <==>
      && IsNonEmptyString(reservationCode)
      && IsNonEmptyString(clientName)
      && flights.Arr? && HasDirection(flights.items, "OUTBOUND") && HasDirection(flights.items, "RETURN")
    ensures !IsNonEmptyString(reservationCode) ==> r == Some("reservationCode é obrigatório")
    ensures IsNonEmptyString(reservationCode) && !IsNonEmptyString(clientName)
            ==> r == Some("clientName é obrigatório")
    ensures IsNonEmptyString(reservationCode) && IsNonEmptyString(clientName)
            && (!flights.Arr? || flights.items == [])
            ==> r == Some("flights é obrigatório")
    ensures IsNonEmptyString(reservationCode) && IsNonEmptyString(clientName)
            && flights.Arr? && flights.items != []
            && !(HasDirection(flights.items, "OUTBOUND") && HasDirection(flights.items, "RETURN"))
            ==> r == Some("Inclua flights com direction OUTBOUND e RETURN")
  {
    if !IsNonEmptyString(reservationCode) then Some("reservationCode é obrigatório")
    else if !IsNonEmptyString(clientName) then Some("clientName é obrigatório")
    else if !flights.Arr? || |flights.items| < 1 then Some("flights é obrigatório")
    else if !HasDirection(flights.items, "OUTBOUND") || !HasDirection(flights.items, "RETURN") then
      Some("Inclua flights com direction OUTBOUND e RETURN")
    else None
  }

  /** One element of `flights.map(...)`. */
  function FlightOf(f: Value): Flight
    requires Field(f, "direction").Str?
  {
    Flight(
      Field(f, "direction").s,
      OptToString(Field(f, "flightNumber")),
      OptToString(Field(f, "departureTime")),
      OptToString(Field(f, "arrivalTime")),
      OptToString(Field(f, "embarkAirport")),
      OptToString(Field(f, "disembarkAirport")))
  }

  /** The flight rows of the nested create. `f.direction` on a `null` or
      `undefined` element throws inside `map`; a direction that is not a string
      is refused by the client before the query. Otherwise one row per
      element, in order, direction copied. */
  function BuildFlights(items: seq<Value>): (r: Call<seq<Flight>>)
    ensures r.Thrown? <==> exists i :: 0 <= i < |items| && !Field(items[i], "direction").Str?
    ensures r.Thrown? ==>
      r.fault == (if exists i :: 0 <= i < |items| && IsNullish(items[i]) then TypeError else InvalidData)
    ensures r.Returned? ==>
      && |r.value| == |items|
      && forall i :: 0 <= i < |items| ==>
           && r.value[i].direction == Field(items[i], "direction").s
           && r.value[i].flightNumber == OptToString(Field(items[i], "flightNumber"))
           && r.value[i].departureTime == OptToString(Field(items[i], "departureTime"))
           && r.value[i].arrivalTime == OptToString(Field(items[i], "arrivalTime"))
           && r.value[i].embarkAirport == OptToString(Field(items[i], "embarkAirport"))
           && r.value[i].disembarkAirport == OptToString(Field(items[i], "disembarkAirport"))
  {
    if exists i :: 0 <= i < |items| && IsNullish(items[i]) then Thrown(TypeError)
    else if exists i :: 0 <= i < |items| && !Field(items[i], "direction").Str? then Thrown(InvalidData)
    else Returned(seq(|items|, i requires 0 <= i < |items| => FlightOf(items[i])))
  }

  /** A payload that passed validation yields rows holding both directions. */
  lemma BuiltFlightsHaveBothDirections(items: seq<Value>)
    requires HasDirection(items, "OUTBOUND") && HasDirection(items, "RETURN")
    requires BuildFlights(items).Returned?
    ensures exists i :: 0 <= i < |items| && BuildFlights(items).value[i].direction == "OUTBOUND"
    ensures exists i :: 0 <= i < |items| && BuildFlights(items).value[i].direction == "RETURN"
  {
    var o :| 0 <= o < |items| && Field(items[o], "direction") == Str("OUTBOUND");
    var t :| 0 <= t < |items| && Field(items[t], "direction") == Str("RETURN");
    assert BuildFlights(items).value[o].direction == "OUTBOUND";
    assert BuildFlights(items).value[t].direction == "RETURN";
  }

  /** The hotel row: created only for a truthy `hotel`; a missing or null
      `hotelName` is stored as "". */
  function BuildHotel(hotel: Value): (r: Option<Hotel>)
    ensures r.Some? <==> Truthy(hotel)
    ensures r.Some? && IsNullish(Field(hotel, "hotelName")) ==> r.value.hotelName == ""
    ensures r.Some? && Field(hotel, "hotelName").Str? ==> r.value.hotelName == Field(hotel, "hotelName").s
    ensures r.Some? ==>
      && r.value.mealPlan == OptToString(Field(hotel, "mealPlan"))
      && r.value.roomType == OptToString(Field(hotel, "roomType"))
      && r.value.checkInTime == OptToString(Field(hotel, "checkInTime"))
      && r.value.checkOutTime == OptToString(Field(hotel, "checkOutTime"))
  {
    if !Truthy(hotel) then None
    else Some(Hotel(
      OptToString(Field(hotel, "hotelName")).GetOr(""),
      OptToString(Field(hotel, "mealPlan")),
      OptToString(Field(hotel, "roomType")),
      OptToString(Field(hotel, "checkInTime")),
      OptToString(Field(hotel, "checkOutTime"))))
  }

  /** The transfer row: created only for a truthy `transfer`. */
  function BuildTransfer(transfer: Value): (r: Option<Transfer>)
    ensures r.Some? <==> Truthy(transfer)
    ensures r.Some? ==> r.value.receptiveName == OptToString(Field(transfer, "receptiveName"))
  {
    if !Truthy(transfer) then None
    else Some(Transfer(OptToString(Field(transfer, "receptiveName"))))
  }

  /** The validation looks at the untrimmed code, so a code of blanks passes
      it; the stored code is then trimmed to "". */
  lemma BlankCodePasses(clientName: Value, flights: Value)
    requires IsNonEmptyString(clientName)
    requires flights.Arr? && HasDirection(flights.items, "OUTBOUND") && HasDirection(flights.items, "RETURN")
    ensures PayloadError(Str("   "), clientName, flights).None?
    ensures Trim("   ") == ""
  {
  }
}
