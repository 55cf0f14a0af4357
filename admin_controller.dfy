/** The admin controller: each handler builds the service input from the
    request (path parameters trimmed, body fields read through `req.body ?? {}`,
    the agency taken from the authenticated user), calls the service and turns
    its result into a reply; anything the service throws becomes a 500. */
module AdminController {
  import opened Js
  import opened Flights
  import opened Db
  import opened Http
  import opened Middleware
  import opened VoucherInput
  import opened AdminService

  /** `reply(res, result)`: a failure sends its status and message, a success
      its data with its status or 200. */
  function Reply<D>(result: ServiceResult<D>): (resp: Response<D>)
    ensures result.Fail? ==> resp == Error(result.status, result.message)
    ensures result.Ok? ==> resp.status == result.httpStatus.GetOr(200) && resp.body == Json(result.data)
  {
    match result
    case Fail(status, message) => Error(status, message)
    case Ok(status, data) => Response(status.GetOr(200), Json(data))
  }

  /** `reply` inside the handler's `try`: a throw reaches the `catch`. */
  function ReplyCall<D>(call: Call<ServiceResult<D>>): (resp: Response<D>)
    ensures call.Thrown? ==> resp == Error(500, InternalError)
    ensures call.Returned? ==> resp == Reply(call.value)
  {
    match call
    case Thrown(_) => Error(500, InternalError)
    case Returned(result) => Reply(result)
  }

  /** `req.user?.agencyId ? String(req.user.agencyId) : ""`. */
  function CallerAgency(user: Option<AuthUser>): (r: string)
    ensures r != "" <==> user.Some? && user.value.agencyId.Some? && user.value.agencyId.value != ""
    ensures r != "" ==> r == user.value.agencyId.value
  {
    if user.Some? && user.value.agencyId.Some? then user.value.agencyId.value else ""
  }

  /** `String(req.params.x || "").trim()`: a missing parameter reads as "". */
  function PathParam(param: Option<string>): (r: string)
    ensures param.None? ==> r == ""
    ensures param.Some? ==> r == Trim(param.value)
  {
    Trim(param.GetOr(""))
  }

  /** `getMe`: 401 without a user id, 404 for an unknown user, else the user
      and the agency. */
  function GetMe(db: Store, user: Option<AuthUser>): (resp: Response<Me>)
    reads db
    requires db.Valid()
    ensures user.None? || user.value.userId == "" ==> resp == Error(401, "Não autorizado")
    ensures user.Some? && user.value.userId != "" && user.value.userId !in db.users
            ==> resp == Error(404, "Usuário não encontrado")
    ensures resp.status == 200 <==> user.Some? && user.value.userId != "" && user.value.userId in db.users
    ensures resp.status == 200 ==> resp.body.Json? && resp.body.data.user == ViewOf(db.users[user.value.userId])
  {
    if user.None? || user.value.userId == "" then Error(401, "Não autorizado")
    else match AdminService.GetMe(db, user.value.userId)
      case None => Error(404, "Usuário não encontrado")
      case Some(me) => Response(200, Json(me))
  }

  /** `listAgencies`: always 200 with every agency. */
  function ListAgencies(db: Store): (resp: Response<set<Agency>>)
    reads db
    requires db.Valid()
    ensures resp.status == 200 && resp.body.Json?
    ensures forall id :: id in db.agencies ==> db.agencies[id] in resp.body.data
    ensures forall a :: a in resp.body.data ==> a.id in db.agencies && db.agencies[a.id] == a
  {
    Response(200, Json(AdminService.ListAgencies(db)))
  }

  function AgencyInput(body: Value): CreateAgencyInput {
    CreateAgencyInput(Field(body, "name"), Field(body, "slug"), Field(body, "phone"), Field(body, "email"))
  }

  /** `createAgency`: never answers 500, since the service never throws. */
  method CreateAgency(db: Store, body: Value, newId: string) returns (resp: Response<Agency>)
    requires db.Valid()
    modifies db
    ensures db.Valid()
    ensures resp == ReplyCall(CreateAgencyOutcome(old(db.agencies), AgencyInput(body), newId))
    ensures resp.status in {201, 400, 409}
    ensures resp.status == 201 ==> resp.body.Json? && db.agencies == old(db.agencies)[newId := resp.body.data]
    ensures resp.status != 201 ==> db.agencies == old(db.agencies)
    ensures db.users == old(db.users) && db.vouchers == old(db.vouchers)
  {
    var r := AdminService.CreateAgency(db, AgencyInput(body), newId);
    resp := ReplyCall(r);
  }

  /** `updateAgencyStatus`: an unknown agency makes the update throw, which
      is answered 500. */
  method UpdateAgencyStatus(db: Store, agencyIdParam: Option<string>, body: Value) returns (resp: Response<Agency>)
    requires db.Valid()
    modifies db
    ensures db.Valid()
    ensures var input := UpdateAgencyStatusInput(PathParam(agencyIdParam), Field(body, "isActive"));
      resp == ReplyCall(UpdateAgencyStatusOutcome(old(db.agencies), input))
    ensures PathParam(agencyIdParam) != "" && Field(body, "isActive").Bool? && PathParam(agencyIdParam) !in old(db.agencies)
            ==> resp == Error(500, InternalError) && db.agencies == old(db.agencies)
    ensures resp.status == 200 ==> resp.body.Json? && db.agencies == old(db.agencies)[PathParam(agencyIdParam) := resp.body.data]
    ensures resp.status != 200 ==> db.agencies == old(db.agencies)
    ensures db.users == old(db.users) && db.vouchers == old(db.vouchers)
  {
    var r := AdminService.UpdateAgencyStatus(db, UpdateAgencyStatusInput(PathParam(agencyIdParam), Field(body, "isActive")));
    resp := ReplyCall(r);
  }

  /** `updateAgencyBranding`. */
  method UpdateAgencyBranding(db: Store, agencyIdParam: Option<string>, body: Value) returns (resp: Response<Agency>)
    requires db.Valid()
    modifies db
    ensures db.Valid()
    ensures var input := UpdateAgencyBrandingInput(PathParam(agencyIdParam), Field(body, "logoUrl"), Field(body, "primaryColor"));
      resp == ReplyCall(UpdateAgencyBrandingOutcome(old(db.agencies), input))
    ensures resp.status == 200 ==> resp.body.Json? && db.agencies == old(db.agencies)[PathParam(agencyIdParam) := resp.body.data]
    ensures resp.status != 200 ==> db.agencies == old(db.agencies)
    ensures db.users == old(db.users) && db.vouchers == old(db.vouchers)
  {
    var input := UpdateAgencyBrandingInput(PathParam(agencyIdParam), Field(body, "logoUrl"), Field(body, "primaryColor"));
    var r := AdminService.UpdateAgencyBranding(db, input);
    resp := ReplyCall(r);
    assert resp.status == 200 <==> r.Returned? && r.value.Ok?;
  }

  function AgencyUserInput(agencyIdParam: Option<string>, body: Value): CreateAgencyUserInput {
    CreateAgencyUserInput(PathParam(agencyIdParam), Field(body, "name"), Field(body, "email"),
                          Field(body, "password"), Field(body, "role"))
  }

  /** `createAgencyUser`: never answers 500, since the service never throws. */
  method CreateAgencyUser(db: Store, agencyIdParam: Option<string>, body: Value, newId: string, passwordHash: string)
    returns (resp: Response<UserView>)
    requires db.Valid()
    modifies db
    ensures db.Valid()
    ensures resp == ReplyCall(CreateAgencyUserOutcome(
      old(db.agencies), old(db.users), AgencyUserInput(agencyIdParam, body), newId, passwordHash))
    ensures resp.status in {201, 400, 404, 409}
    ensures resp.status == 201 ==>
      var input := AgencyUserInput(agencyIdParam, body);
      input.name.Str? && input.email.Str?
      && db.users == old(db.users)[newId := NewUser(input, newId, passwordHash)]
    ensures resp.status != 201 ==> db.users == old(db.users)
    ensures db.agencies == old(db.agencies) && db.vouchers == old(db.vouchers)
  {
    var r := AdminService.CreateAgencyUser(db, AgencyUserInput(agencyIdParam, body), newId, passwordHash);
    resp := ReplyCall(r);
  }

  function VoucherInputOf(user: Option<AuthUser>, body: Value): CreateVoucherInput {
    CreateVoucherInput(CallerAgency(user), Field(body, "reservationCode"), Field(body, "clientName"),
                       Field(body, "flights"), Field(body, "hotel"), Field(body, "transfer"))
  }

  /** `createVoucher`: the voucher always goes to the caller's own agency,
      whatever the body says. */
  method CreateVoucher(db: Store, user: Option<AuthUser>, body: Value, newId: string)
    returns (resp: Response<VoucherWithAgency<Agency>>)
    requires db.Valid()
    modifies db
    ensures db.Valid()
    ensures resp == ReplyCall(CreateVoucherOutcome(old(db.agencies), old(db.vouchers), VoucherInputOf(user, body), newId))
    ensures resp.status == 201 ==>
      && newId in db.vouchers
      && db.vouchers[newId].agencyId == CallerAgency(user) != ""
      && db.vouchers == old(db.vouchers)[newId := db.vouchers[newId]]
    ensures resp.status == 201 ==>
      var input := VoucherInputOf(user, body);
      && VoucherInputError(input).None? && BuildFlights(input.flights.items).Returned?
      && db.vouchers[newId] == NewVoucher(input, newId, BuildFlights(input.flights.items).value)
    ensures resp.status != 201 ==> db.vouchers == old(db.vouchers)
    ensures db.agencies == old(db.agencies) && db.users == old(db.users)
  {
    var r := AdminService.CreateVoucher(db, VoucherInputOf(user, body), newId);
    resp := ReplyCall(r);
  }

  /** `listVouchers`: only the caller's agency's vouchers. */
  function ListVouchers(db: Store, user: Option<AuthUser>): (resp: Response<set<VoucherSummary>>)
    reads db
    ensures CallerAgency(user) == "" ==> resp == Error(400, NoAgencyMessage)
    ensures CallerAgency(user) != "" ==> resp.status == 200 && resp.body.Json?
    ensures resp.body.Json? ==> forall s :: s in resp.body.data ==>
      s.agencyId == CallerAgency(user) && exists id :: id in db.vouchers && SummaryOf(db.vouchers[id]) == s
    ensures resp.body.Json? ==>
      forall id :: id in db.vouchers && db.vouchers[id].agencyId == CallerAgency(user) ==> SummaryOf(db.vouchers[id]) in resp.body.data
  {
    Reply(AdminService.ListVouchers(db, CallerAgency(user)))
  }

  /** `getVoucherById`: a caller sees a voucher only when it belongs to the
      caller's own agency; another agency's voucher is answered 404. */
  function GetVoucherById(db: Store, user: Option<AuthUser>, idParam: Option<string>): (resp: Response<Voucher>)
    reads db
    ensures resp.status == 200 <==>
      && CallerAgency(user) != "" && PathParam(idParam) != ""
      && PathParam(idParam) in db.vouchers && db.vouchers[PathParam(idParam)].agencyId == CallerAgency(user)
    ensures resp.status == 200 ==>
      var v := db.vouchers[PathParam(idParam)];
      resp.body == Json(v.(flights := SortFlights(v.flights)))
    ensures CallerAgency(user) != "" && PathParam(idParam) != "" && resp.status != 200
            ==> resp == Error(404, "Voucher não encontrado")
  {
    Reply(AdminService.GetVoucherById(db, CallerAgency(user), PathParam(idParam)))
  }
}
