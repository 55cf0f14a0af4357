/** `GET /public/vouchers/:reservationCode`: the voucher a traveller's app
    fetches by its reservation code, with no authentication. */
module PublicRoutes {
  import opened Js
  import opened Flights
  import opened Db
  import opened Http
  import opened VoucherInput
  import opened AdminService

  /** The agency columns the public route selects: no `isActive`. */
  datatype PublicAgency = PublicAgency(
    id: string,
    name: string,
    slug: Option<string>,
    phone: Option<string>,
    email: Option<string>,
    logoUrl: Option<string>,
    primaryColor: Option<string>)

  function PublicAgencyOf(a: Agency): (p: PublicAgency)
    ensures p.id == a.id && p.name == a.name && p.slug == a.slug && p.phone == a.phone && p.email == a.email
    ensures p.logoUrl == a.logoUrl && p.primaryColor == a.primaryColor
  {
    PublicAgency(a.id, a.name, a.slug, a.phone, a.email, a.logoUrl, a.primaryColor)
  }

  /** What the route answers against the given tables. The code is trimmed
      before the lookup and the lookup is exact; the agency's `isActive` is not
      consulted. */
  function PublicVoucherOutcome(agencies: map<string, Agency>, vouchers: map<string, Voucher>, codeParam: string)
    : (resp: Response<VoucherWithAgency<PublicAgency>>)
    requires CodesUnique(vouchers)
    requires forall id :: id in vouchers ==> vouchers[id].agencyId in agencies
    ensures Trim(codeParam) == "" ==> resp == Error(400, "reservationCode inválido")
    ensures Trim(codeParam) != "" && !CodeTaken(vouchers, Trim(codeParam)) ==> resp == Error(404, "Voucher não encontrado")
    ensures resp.status == 200 <==> Trim(codeParam) != "" && CodeTaken(vouchers, Trim(codeParam))
    ensures Trim(codeParam) != "" ==>
      forall id :: id in vouchers && vouchers[id].reservationCode == Trim(codeParam) ==>
        var v := vouchers[id];
        resp == Response(200, Json(VoucherWithAgency(v.(flights := SortFlights(v.flights)), PublicAgencyOf(agencies[v.agencyId]))))
  {
    var code := Trim(codeParam);
    if code == "" then Error(400, "reservationCode inválido")
    else match VoucherWithCode(vouchers, code)
      case None => Error(404, "Voucher não encontrado")
      case Some(v) =>
        Response(200, Json(VoucherWithAgency(v.(flights := SortFlights(v.flights)), PublicAgencyOf(agencies[v.agencyId]))))
  }

  /** The route handler. */
  method GetPublicVoucher(db: Store, codeParam: string) returns (resp: Response<VoucherWithAgency<PublicAgency>>)
    requires db.Valid()
    ensures resp == PublicVoucherOutcome(db.agencies, db.vouchers, codeParam)
  {
    var code := Trim(codeParam);
    if code == "" {
      return Error(400, "reservationCode inválido");
    }
    var found := db.FindVoucherByCode(code);
    if found.None? {
      return Error(404, "Voucher não encontrado");
    }
    var v := found.value;
    resp := Response(200, Json(VoucherWithAgency(v.(flights := SortFlights(v.flights)), PublicAgencyOf(db.agencies[v.agencyId]))));
  }

  /** After a voucher is inserted under a fresh id with a free code, the
      route serves it for any parameter that trims to that code. */
  lemma InsertedVoucherIsServed(
    agencies: map<string, Agency>, vouchers: map<string, Voucher>, id: string, v: Voucher, codeParam: string)
    requires CodesUnique(vouchers)
    requires forall k :: k in vouchers ==> vouchers[k].agencyId in agencies
    requires id !in vouchers && !CodeTaken(vouchers, v.reservationCode) && v.agencyId in agencies
    requires Trim(codeParam) == v.reservationCode != ""
    ensures var after := vouchers[id := v];
      && CodesUnique(after)
      && (forall k :: k in after ==> after[k].agencyId in agencies)
      && PublicVoucherOutcome(agencies, after, codeParam)
         == Response(200, Json(VoucherWithAgency(v.(flights := SortFlights(v.flights)), PublicAgencyOf(agencies[v.agencyId]))))
  {
    InsertedVoucherIsFound(vouchers, id, v);
  }

  /** A voucher created through the admin service can be fetched publicly by
      its code, with or without surrounding blanks, and the public reply lists
      the same flights, in the same order, as the creation reply did. */
  lemma CreatedVoucherIsPublic(
    agencies: map<string, Agency>, vouchers: map<string, Voucher>, input: CreateVoucherInput, newId: string,
    codeParam: string)
    requires CodesUnique(vouchers)
    requires forall id :: id in vouchers ==> vouchers[id].agencyId in agencies
    requires CreateVoucherOutcome(agencies, vouchers, input, newId).Returned?
    requires CreateVoucherOutcome(agencies, vouchers, input, newId).value.Ok?
    requires Trim(codeParam) == Trim(input.reservationCode.s) != ""
    ensures var created := CreateVoucherOutcome(agencies, vouchers, input, newId).value.data;
      var after := vouchers[newId := NewVoucher(input, newId, BuildFlights(input.flights.items).value)];
      && CodesUnique(after)
      && (forall id :: id in after ==> after[id].agencyId in agencies)
      && PublicVoucherOutcome(agencies, after, codeParam)
         == Response(200, Json(VoucherWithAgency(created.voucher, PublicAgencyOf(created.agency))))
  {
    var stored := NewVoucher(input, newId, BuildFlights(input.flights.items).value);
    InsertedVoucherIsServed(agencies, vouchers, newId, stored, codeParam);
  }

  /** A voucher whose code was stored blank can never be fetched: an empty
      code is refused before the lookup. */
  lemma BlankCodeNeverServed(agencies: map<string, Agency>, vouchers: map<string, Voucher>, codeParam: string)
    requires CodesUnique(vouchers)
    requires forall id :: id in vouchers ==> vouchers[id].agencyId in agencies
    requires PublicVoucherOutcome(agencies, vouchers, codeParam).status == 200
    ensures PublicVoucherOutcome(agencies, vouchers, codeParam).body.data.voucher.reservationCode != ""
  {
    var code := Trim(codeParam);
    var id :| id in vouchers && vouchers[id].reservationCode == code;
  }
}
