/** The older admin router, `POST /admin/agencies` and `POST /admin/vouchers`:
    the same payload rules as the service, but the agency comes from the body,
    no slug is stored, every unexpected error is a 500, and the reply lists the
    flights in stored order. */
module AdminRoutes {
  import opened Js
  import opened Flights
  import opened Db
  import opened Http
  import opened VoucherInput
  import opened AdminService

  /** The row `POST /admin/agencies` inserts: no slug, optional contacts copied
      with `?.toString()`. */
  function LegacyAgency(body: Value, newId: string): Agency
    requires Field(body, "name").Str?
  {
    Agency(newId, Trim(Field(body, "name").s), None,
           OptToString(Field(body, "phone")), OptToString(Field(body, "email")), true, None, None)
  }

  /** What `POST /admin/agencies` answers against the given agencies. Since no
      slug is stored, the only way the insert fails is an id collision, which
      the catch-all answers 500. */
  function PostAgenciesOutcome(agencies: map<string, Agency>, body: Value, newId: string): (resp: Response<Agency>)
    ensures !IsNonEmptyString(Field(body, "name")) ==> resp == Error(400, "name é obrigatório")
    ensures IsNonEmptyString(Field(body, "name")) && newId in agencies ==> resp == Error(500, InternalError)
    ensures resp.status == 201 <==> IsNonEmptyString(Field(body, "name")) && newId !in agencies
    ensures resp.status == 201 ==>
      && resp.body.Json?
      && resp.body.data.id == newId
      && resp.body.data.name == Trim(Field(body, "name").s)
      && resp.body.data.slug.None?
      && resp.body.data.phone == OptToString(Field(body, "phone"))
      && resp.body.data.email == OptToString(Field(body, "email"))
      && resp.body.data.isActive
  {
    if !IsNonEmptyString(Field(body, "name")) then Error(400, "name é obrigatório")
    else if newId in agencies then Error(500, InternalError)
    else Response(201, Json(LegacyAgency(body, newId)))
  }

  /** `POST /admin/agencies`. */
  method PostAgencies(db: Store, body: Value, newId: string) returns (resp: Response<Agency>)
    requires db.Valid()
    modifies db
    ensures db.Valid()
    ensures resp == PostAgenciesOutcome(old(db.agencies), body, newId)
    ensures resp.status == 201 ==> resp.body.Json?
    ensures db.agencies == if resp.status == 201 then old(db.agencies)[newId := resp.body.data] else old(db.agencies)
    ensures db.users == old(db.users) && db.vouchers == old(db.vouchers)
  {
    if !IsNonEmptyString(Field(body, "name")) {
      return Error(400, "name é obrigatório");
    }
    var row := LegacyAgency(body, newId);
    var fault := db.CreateAgency(row);
    if fault.Some? {
      return Error(500, InternalError);
    }
    resp := Response(201, Json(row));
  }

  /** An agency created by the older route holds no slug, so it never takes a
      slug away from the service's `createAgency`. */
  lemma LegacyAgencyLeavesSlugsFree(
    agencies: map<string, Agency>, body: Value, newId: string, slug: Option<string>)
    requires PostAgenciesOutcome(agencies, body, newId).status == 201
    ensures SlugTaken(agencies[newId := PostAgenciesOutcome(agencies, body, newId).body.data], slug)
        <==> SlugTaken(agencies, slug)
  {
    var after := agencies[newId := PostAgenciesOutcome(agencies, body, newId).body.data];
    if SlugTaken(after, slug) {
      var id :| id in after && after[id].slug == slug;
      assert id != newId;
      assert id in agencies && agencies[id].slug == slug;
    }
    if SlugTaken(agencies, slug) {
      var id :| id in agencies && agencies[id].slug == slug;
      assert id != newId;
      assert id in after && after[id].slug == slug;
    }
  }

  /** The body of `POST /admin/vouchers` read as the service's input; an
      agency id that is not a string reads as "". */
  function AsServiceInput(body: Value): CreateVoucherInput {
    var agencyId := Field(body, "agencyId");
    CreateVoucherInput(if agencyId.Str? then agencyId.s else "",
                       Field(body, "reservationCode"), Field(body, "clientName"),
                       Field(body, "flights"), Field(body, "hotel"), Field(body, "transfer"))
  }

  /** The answers `POST /admin/vouchers` gives before it reaches the
      database: the 400s of the payload checks, in order, and the 500 of a
      flight the client refuses. */
  function EarlyReply(body: Value): (r: Option<Response<Voucher>>)
    ensures !IsNonEmptyString(Field(body, "agencyId")) ==> r == Some(Error(400, "agencyId é obrigatório"))
    ensures IsNonEmptyString(Field(body, "agencyId")) && VoucherInputError(AsServiceInput(body)).Some?
            ==> r == Some(Error(400, VoucherInputError(AsServiceInput(body)).value))
    ensures IsNonEmptyString(Field(body, "agencyId")) && VoucherInputError(AsServiceInput(body)).None?
            ==> r == (if BuildFlights(Field(body, "flights").items).Thrown? then Some(Error(500, InternalError)) else None)
  {
    var input := AsServiceInput(body);
    if !IsNonEmptyString(Field(body, "agencyId")) then Some(Error(400, "agencyId é obrigatório"))
    else match VoucherInputError(input)
      case Some(message) => Some(Error(400, message))
      case None => if BuildFlights(input.flights.items).Thrown? then Some(Error(500, InternalError)) else None
  }

  /** How the route answers its insert of `row`: the unique violation is the
      409, and the missing agency falls through to the catch-all 500. */
  function InsertReply(agencies: map<string, Agency>, vouchers: map<string, Voucher>, row: Voucher)
    : (resp: Response<Voucher>)
    ensures resp.status == 201 <==> row.id !in vouchers && !CodeTaken(vouchers, row.reservationCode) && row.agencyId in agencies
    ensures resp.status == 201 ==> resp.body == Json(row)
    ensures row.id in vouchers || CodeTaken(vouchers, row.reservationCode)
            ==> resp == Error(409, "reservationCode já existe para essa agência")
    ensures !(row.id in vouchers || CodeTaken(vouchers, row.reservationCode)) && row.agencyId !in agencies
            ==> resp == Error(500, InternalError)
  {
    if row.id in vouchers || CodeTaken(vouchers, row.reservationCode) then
      Error(409, "reservationCode já existe para essa agência")
    else if row.agencyId !in agencies then Error(500, InternalError)
    else Response(201, Json(row))
  }

  /** The insert step of `POST /admin/vouchers`. */
  method InsertVoucher(db: Store, row: Voucher) returns (resp: Response<Voucher>)
    requires db.Valid()
    modifies db
    ensures db.Valid()
    ensures resp == InsertReply(old(db.agencies), old(db.vouchers), row)
    ensures db.vouchers == if resp.status == 201 then old(db.vouchers)[row.id := row] else old(db.vouchers)
    ensures db.agencies == old(db.agencies) && db.users == old(db.users)
  {
    var fault := db.CreateVoucher(row);
    resp := if fault.None? then Response(201, Json(row))
            else if Code(fault.value) == "P2002" then Error(409, "reservationCode já existe para essa agência")
            else Error(500, InternalError);
  }

  /** What `POST /admin/vouchers` answers against the given tables. A code
      or id collision is a 409; a flight the client refuses and a missing
      agency are 500s. The reply is the stored row, flights unsorted. */
  function PostVouchersOutcome(
    agencies: map<string, Agency>, vouchers: map<string, Voucher>, body: Value, newId: string)
    : (resp: Response<Voucher>)
    ensures !IsNonEmptyString(Field(body, "agencyId")) ==> resp == Error(400, "agencyId é obrigatório")
    ensures IsNonEmptyString(Field(body, "agencyId")) && VoucherInputError(AsServiceInput(body)).Some?
            ==> resp == Error(400, VoucherInputError(AsServiceInput(body)).value)
    ensures IsNonEmptyString(Field(body, "agencyId")) && VoucherInputError(AsServiceInput(body)).None?
            && BuildFlights(Field(body, "flights").items).Thrown?
            ==> resp == Error(500, InternalError)
    ensures resp.status == 409 ==> resp == Error(409, "reservationCode já existe para essa agência")
    ensures resp.status == 201 ==>
      && IsNonEmptyString(Field(body, "agencyId"))
      && VoucherInputError(AsServiceInput(body)).None?
      && BuildFlights(Field(body, "flights").items).Returned?
      && resp.body == Json(NewVoucher(AsServiceInput(body), newId, BuildFlights(Field(body, "flights").items).value))
      && newId !in vouchers && !CodeTaken(vouchers, resp.body.data.reservationCode)
      && resp.body.data.agencyId == Field(body, "agencyId").s && resp.body.data.agencyId in agencies
    ensures EarlyReply(body).None? ==>
      resp == InsertReply(agencies, vouchers,
                          NewVoucher(AsServiceInput(body), newId, BuildFlights(Field(body, "flights").items).value))
    ensures resp.status == 201 <==>
      && EarlyReply(body).None?
      && newId !in vouchers && !CodeTaken(vouchers, Trim(Field(body, "reservationCode").s))
      && Field(body, "agencyId").s in agencies
  {
    match EarlyReply(body)
    case Some(early) => early
    case None =>
      var input := AsServiceInput(body);
      InsertReply(agencies, vouchers, NewVoucher(input, newId, BuildFlights(input.flights.items).value))
  }

  /** `POST /admin/vouchers`. */
  method PostVouchers(db: Store, body: Value, newId: string) returns (resp: Response<Voucher>)
    requires db.Valid()
    modifies db
    ensures db.Valid()
    ensures resp == PostVouchersOutcome(old(db.agencies), old(db.vouchers), body, newId)
    ensures resp.status == 201 ==> resp.body.Json?
    ensures db.vouchers == if resp.status == 201 then old(db.vouchers)[newId := resp.body.data] else old(db.vouchers)
    ensures db.agencies == old(db.agencies) && db.users == old(db.users)
  {
    var early := EarlyReply(body);
    if early.Some? {
      return early.value;
    }
    var input := AsServiceInput(body);
    resp := InsertVoucher(db, NewVoucher(input, newId, BuildFlights(input.flights.items).value));
  }

  /** Given the same payload and agency, the older route succeeds exactly when
      the service's `createVoucher` does, both store the same voucher, and the
      service's reply is the older reply with its flights sorted. */
  lemma LegacyAgreesWithService(
    agencies: map<string, Agency>, vouchers: map<string, Voucher>, body: Value, newId: string)
    requires IsNonEmptyString(Field(body, "agencyId"))
    ensures var legacy := PostVouchersOutcome(agencies, vouchers, body, newId);
      var service := CreateVoucherOutcome(agencies, vouchers, AsServiceInput(body), newId);
      && (legacy.status == 201 <==> service.Returned? && service.value.Ok?)
      && (legacy.status == 201 ==>
            service.value.data.voucher == legacy.body.data.(flights := SortFlights(legacy.body.data.flights)))
      && (legacy.status == 409 <==> service == Returned(Fail(409, "reservationCode já existe")))
  {
  }
}
