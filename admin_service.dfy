/** The admin service: each operation validates its input (first failing check
    wins), normalises it, and either returns a tagged result or throws what the
    database threw, except that a unique-key violation becomes a 409. */
module AdminService {
  import opened Js
  import opened Flights
  import opened Db
  import opened VoucherInput

  /** `{ ok: true, status?, data }` (`httpStatus` is the optional `status`) or
      `{ ok: false, status, message }`. */
  datatype ServiceResult<D> = Ok(httpStatus: Option<int>, data: D) | Fail(status: int, message: string)

  datatype CreateAgencyInput = CreateAgencyInput(name: Value, slug: Value, phone: Value, email: Value)
  datatype UpdateAgencyStatusInput = UpdateAgencyStatusInput(agencyId: string, isActive: Value)
  datatype UpdateAgencyBrandingInput = UpdateAgencyBrandingInput(agencyId: string, logoUrl: Value, primaryColor: Value)
  datatype CreateAgencyUserInput =
    CreateAgencyUserInput(agencyId: string, name: Value, email: Value, password: Value, role: Value)
  datatype CreateVoucherInput = CreateVoucherInput(
    agencyId: string, reservationCode: Value, clientName: Value, flights: Value, hotel: Value, transfer: Value)

  /** The user and, when the user belongs to one, the agency. */
  datatype Me = Me(user: UserView, agency: Option<Agency>)

  /** A voucher row without its nested rows, as `findMany` without `include` returns it. */
  datatype VoucherSummary = VoucherSummary(id: string, agencyId: string, reservationCode: string, clientName: string)

  function SummaryOf(v: Voucher): VoucherSummary {
    VoucherSummary(v.id, v.agencyId, v.reservationCode, v.clientName)
  }

  const NoAgencyMessage := "Seu usuário não possui agencyId vinculado. Contate o suporte."

  /** `isUserRole`: exactly the two roles this service hands out. */
  predicate IsUserRole(v: Value) {
    v == Str("SUPERADMIN") || v == Str("ADMIN")
  }

  /** `isUserRole(role) ? role : "ADMIN"`: "AGENCY", other strings and
      non-strings all become "ADMIN". */
  function FinalRole(role: Value): (r: string)
    ensures r == "SUPERADMIN" || r == "ADMIN"
    ensures IsUserRole(role) <==> Str(r) == role
  {
    if IsUserRole(role) then role.s else "ADMIN"
  }

  /** The branding tri-state: `undefined` keeps the column, `null` clears it,
      anything else is stored as `String(value)`. */
  function BrandingPatch(v: Value): (p: Patch)
    ensures p == Keep <==> v.Undefined?
    ensures p == Clear <==> v.Null?
    ensures p.Put? ==> p.value == ToStr(v)
  {
    if v.Undefined? then Keep else if v.Null? then Clear else Put(ToStr(v))
  }

  /** `phone ? String(phone) : null`. */
  function OptionalContact(v: Value): (r: Option<string>)
    ensures r.None? <==> !Truthy(v)
    ensures v.Str? && v.s != "" ==> r == Some(v.s)
  {
    if Truthy(v) then Some(ToStr(v)) else None
  }

  /** The row `createAgency` asks the database to insert. */
  function NewAgency(input: CreateAgencyInput, newId: string): Agency
    requires input.name.Str? && input.slug.Str?
  {
    Agency(newId, Trim(input.name.s), Some(NormalizeKey(input.slug.s)),
           OptionalContact(input.phone), OptionalContact(input.email), true, None, None)
  }

  /** What `createAgency` returns or throws against the given agencies; `newId`
      is the id the database generates. It never throws: the only fault the
      insert can raise is a unique violation, which becomes a 409. */
  function CreateAgencyOutcome(agencies: map<string, Agency>, input: CreateAgencyInput, newId: string)
    : (r: Call<ServiceResult<Agency>>)
    ensures r.Returned?
    ensures !IsNonEmptyString(input.name) ==> r.value == Fail(400, "name é obrigatório")
    ensures IsNonEmptyString(input.name) && !IsNonEmptyString(input.slug)
            ==> r.value == Fail(400, "slug é obrigatório")
    ensures IsNonEmptyString(input.name) && IsNonEmptyString(input.slug)
            && (newId in agencies || SlugTaken(agencies, Some(NormalizeKey(input.slug.s))))
            ==> r.value == Fail(409, "Slug já existe")
    ensures r.value.Ok? <==>
      && IsNonEmptyString(input.name) && IsNonEmptyString(input.slug)
      && newId !in agencies && !SlugTaken(agencies, Some(NormalizeKey(input.slug.s)))
    ensures r.value.Ok? ==>
      && r.value.httpStatus == Some(201)
      && r.value.data.id == newId
      && r.value.data.name == Trim(input.name.s)
      && r.value.data.slug == Some(NormalizeKey(input.slug.s))
      && r.value.data.phone == OptionalContact(input.phone)
      && r.value.data.email == OptionalContact(input.email)
      && r.value.data.isActive
      && r.value.data.logoUrl.None? && r.value.data.primaryColor.None?
  {
    if !IsNonEmptyString(input.name) then Returned(Fail(400, "name é obrigatório"))
    else if !IsNonEmptyString(input.slug) then Returned(Fail(400, "slug é obrigatório"))
    else
      var row := NewAgency(input, newId);
      if newId in agencies || SlugTaken(agencies, row.slug) then Returned(Fail(409, "Slug já existe"))
      else Returned(Ok(Some(201), row))
  }

  /** `createAgency`. */
  method CreateAgency(db: Store, input: CreateAgencyInput, newId: string)
    returns (r: Call<ServiceResult<Agency>>)
    requires db.Valid()
    modifies db
    ensures db.Valid()
    ensures r == CreateAgencyOutcome(old(db.agencies), input, newId)
    ensures db.agencies == if r.value.Ok? then old(db.agencies)[newId := r.value.data] else old(db.agencies)
    ensures db.users == old(db.users) && db.vouchers == old(db.vouchers)
  {
    if !IsNonEmptyString(input.name) {
      return Returned(Fail(400, "name é obrigatório"));
    }
    if !IsNonEmptyString(input.slug) {
      return Returned(Fail(400, "slug é obrigatório"));
    }
    var row := NewAgency(input, newId);
    var fault := db.CreateAgency(row);
    // Creating an agency can only fail on a unique column, so the rethrow of
    // any other code is never reached.
    if fault.Some? {
      return Returned(Fail(409, "Slug já existe"));
    }
    r := Returned(Ok(Some(201), row));
  }

  /** The slug an agency is created with is already in normal form. */
  lemma CreatedSlugIsNormal(agencies: map<string, Agency>, input: CreateAgencyInput, newId: string)
    requires CreateAgencyOutcome(agencies, input, newId).value.Ok?
    ensures var slug := CreateAgencyOutcome(agencies, input, newId).value.data.slug;
      slug.Some? && NormalizeKey(slug.value) == slug.value
  {
    NormalizeKeyIdempotent(input.slug.s);
  }

  /** Once an agency is created, any later request whose slug has the same
      normal form (differing only in case or surrounding blanks) gets a 409. */
  lemma SlugConflictAfterCreate(
    agencies: map<string, Agency>, first: CreateAgencyInput, firstId: string,
    again: CreateAgencyInput, againId: string)
    requires CreateAgencyOutcome(agencies, first, firstId).value.Ok?
    requires IsNonEmptyString(again.name) && IsNonEmptyString(again.slug)
    requires NormalizeKey(again.slug.s) == NormalizeKey(first.slug.s)
    ensures var after := agencies[firstId := CreateAgencyOutcome(agencies, first, firstId).value.data];
      CreateAgencyOutcome(after, again, againId) == Returned(Fail(409, "Slug já existe"))
  {
    var after := agencies[firstId := CreateAgencyOutcome(agencies, first, firstId).value.data];
    assert firstId in after && after[firstId].slug == Some(NormalizeKey(again.slug.s));
  }

  /** What `updateAgencyStatus` returns or throws: only `isActive` changes,
      and an unknown id makes the update throw. */
  function UpdateAgencyStatusOutcome(agencies: map<string, Agency>, input: UpdateAgencyStatusInput)
    : (r: Call<ServiceResult<Agency>>)
    ensures input.agencyId == "" ==> r == Returned(Fail(400, "agencyId inválido"))
    ensures input.agencyId != "" && !input.isActive.Bool?
            ==> r == Returned(Fail(400, "isActive deve ser boolean"))
    ensures input.agencyId != "" && input.isActive.Bool? && input.agencyId !in agencies
            ==> r == Thrown(RecordNotFound)
    ensures input.agencyId != "" && input.isActive.Bool? && input.agencyId in agencies
            ==> r == Returned(Ok(None, agencies[input.agencyId].(isActive := input.isActive.b)))
  {
    if input.agencyId == "" then Returned(Fail(400, "agencyId inválido"))
    else if !input.isActive.Bool? then Returned(Fail(400, "isActive deve ser boolean"))
    else if input.agencyId !in agencies then Thrown(RecordNotFound)
    else Returned(Ok(None, Updated(agencies[input.agencyId], Some(input.isActive.b), Keep, Keep)))
  }

  /** `updateAgencyStatus`. */
  method UpdateAgencyStatus(db: Store, input: UpdateAgencyStatusInput)
    returns (r: Call<ServiceResult<Agency>>)
    requires db.Valid()
    modifies db
    ensures db.Valid()
    ensures r == UpdateAgencyStatusOutcome(old(db.agencies), input)
    ensures db.agencies ==
      if r.Returned? && r.value.Ok? then old(db.agencies)[input.agencyId := r.value.data] else old(db.agencies)
    ensures db.users == old(db.users) && db.vouchers == old(db.vouchers)
  {
    if input.agencyId == "" {
      return Returned(Fail(400, "agencyId inválido"));
    }
    if !input.isActive.Bool? {
      return Returned(Fail(400, "isActive deve ser boolean"));
    }
    var updated := db.UpdateAgency(input.agencyId, Some(input.isActive.b), Keep, Keep);
    match updated
    case Thrown(f) => r := Thrown(f);
    case Returned(a) => r := Returned(Ok(None, a));
  }

  /** What `updateAgencyBranding` returns or throws: each of `logoUrl` and
      `primaryColor` is kept, cleared or set by its own value alone, and no
      other column changes. */
  function UpdateAgencyBrandingOutcome(agencies: map<string, Agency>, input: UpdateAgencyBrandingInput)
    : (r: Call<ServiceResult<Agency>>)
    ensures input.agencyId == "" ==> r == Returned(Fail(400, "agencyId inválido"))
    ensures input.agencyId != "" && input.agencyId !in agencies ==> r == Thrown(RecordNotFound)
    ensures r.Returned? && r.value.Fail? ==> r.value == Fail(400, "agencyId inválido")
    ensures r.Returned? && r.value.Ok? ==>
      var a := agencies[input.agencyId];
      var u := r.value.data;
      && input.agencyId in agencies
      && r.value.httpStatus.None?
      && u.id == a.id && u.name == a.name && u.slug == a.slug && u.phone == a.phone && u.email == a.email
      && u.isActive == a.isActive
      && (input.logoUrl.Undefined? ==> u.logoUrl == a.logoUrl)
      && (input.logoUrl.Null? ==> u.logoUrl == None)
      && (!IsNullish(input.logoUrl) ==> u.logoUrl == Some(ToStr(input.logoUrl)))
      && (input.primaryColor.Undefined? ==> u.primaryColor == a.primaryColor)
      && (input.primaryColor.Null? ==> u.primaryColor == None)
      && (!IsNullish(input.primaryColor) ==> u.primaryColor == Some(ToStr(input.primaryColor)))
    ensures input.agencyId != "" && input.agencyId in agencies ==> r.Returned? && r.value.Ok?
  {
    if input.agencyId == "" then Returned(Fail(400, "agencyId inválido"))
    else if input.agencyId !in agencies then Thrown(RecordNotFound)
    else
      var u := Updated(agencies[input.agencyId], None, BrandingPatch(input.logoUrl), BrandingPatch(input.primaryColor));
      Returned(Ok(None, u))
  }

  /** `updateAgencyBranding`. */
  method UpdateAgencyBranding(db: Store, input: UpdateAgencyBrandingInput)
    returns (r: Call<ServiceResult<Agency>>)
    requires db.Valid()
    modifies db
    ensures db.Valid()
    ensures r == UpdateAgencyBrandingOutcome(old(db.agencies), input)
    ensures db.agencies ==
      if r.Returned? && r.value.Ok? then old(db.agencies)[input.agencyId := r.value.data] else old(db.agencies)
    ensures db.users == old(db.users) && db.vouchers == old(db.vouchers)
  {
    if input.agencyId == "" {
      return Returned(Fail(400, "agencyId inválido"));
    }
    var updated := db.UpdateAgency(input.agencyId, None, BrandingPatch(input.logoUrl), BrandingPatch(input.primaryColor));
    match updated
    case Thrown(f) => r := Thrown(f);
    case Returned(a) => r := Returned(Ok(None, a));
  }

  /** The checks of `createAgencyUser` before the agency lookup, first failure wins. */
  function UserInputError(input: CreateAgencyUserInput): (r: Option<string>)
    ensures r.None? <==>
      && input.agencyId != ""
      && IsNonEmptyString(input.name)
      && IsNonEmptyString(input.email)
      && IsNonEmptyString(input.password) && |input.password.s| >= 6
    ensures input.agencyId == "" ==> r == Some("agencyId inválido")
    ensures input.agencyId != "" && !IsNonEmptyString(input.name) ==> r == Some("name é obrigatório")
    ensures input.agencyId != "" && IsNonEmptyString(input.name) && !IsNonEmptyString(input.email)
            ==> r == Some("email é obrigatório")
    ensures input.agencyId != "" && IsNonEmptyString(input.name) && IsNonEmptyString(input.email)
            && !(IsNonEmptyString(input.password) && |input.password.s| >= 6)
            ==> r == Some("password é obrigatório (mín 6)")
  {
    if input.agencyId == "" then Some("agencyId inválido")
    else if !IsNonEmptyString(input.name) then Some("name é obrigatório")
    else if !IsNonEmptyString(input.email) then Some("email é obrigatório")
    else if !IsNonEmptyString(input.password) || |input.password.s| < 6 then Some("password é obrigatório (mín 6)")
    else None
  }

  /** The row `createAgencyUser` asks the database to insert. */
  function NewUser(input: CreateAgencyUserInput, newId: string, passwordHash: string): User
    requires input.name.Str? && input.email.Str?
  {
    User(newId, Some(input.agencyId), Trim(input.name.s), NormalizeKey(input.email.s), passwordHash, FinalRole(input.role))
  }

  /** What `createAgencyUser` returns or throws; `newId` is the generated id
      and `passwordHash` what `bcrypt.hash(password, 10)` returned. It never
      throws: the agency is checked first, so the only fault the insert can
      raise is a unique violation, which becomes a 409. */
  function CreateAgencyUserOutcome(
    agencies: map<string, Agency>, users: map<string, User>,
    input: CreateAgencyUserInput, newId: string, passwordHash: string)
    : (r: Call<ServiceResult<UserView>>)
    ensures r.Returned?
    ensures r.value.Fail? ==> r.value.status in {400, 404, 409}
    ensures UserInputError(input).Some? ==> r.value == Fail(400, UserInputError(input).value)
    ensures UserInputError(input).None? && input.agencyId !in agencies
            ==> r.value == Fail(404, "Agência não encontrada")
    ensures UserInputError(input).None? && input.agencyId in agencies
            && (newId in users || EmailTaken(users, NormalizeKey(input.email.s)))
            ==> r.value == Fail(409, "Email já existe")
    ensures r.value.Ok? <==>
      && UserInputError(input).None? && input.agencyId in agencies
      && newId !in users && !EmailTaken(users, NormalizeKey(input.email.s))
    ensures r.value.Ok? ==>
      && r.value.httpStatus == Some(201)
      && r.value.data.id == newId
      && r.value.data.agencyId == Some(input.agencyId)
      && r.value.data.name == Trim(input.name.s)
      && r.value.data.email == NormalizeKey(input.email.s)
      && r.value.data.role == FinalRole(input.role)
  {
    var err := UserInputError(input);
    if err.Some? then Returned(Fail(400, err.value))
    else if input.agencyId !in agencies then Returned(Fail(404, "Agência não encontrada"))
    else
      var row := NewUser(input, newId, passwordHash);
      if newId in users || EmailTaken(users, row.email) then Returned(Fail(409, "Email já existe"))
      else Returned(Ok(Some(201), ViewOf(row)))
  }

  /** `createAgencyUser`. */
  method CreateAgencyUser(db: Store, input: CreateAgencyUserInput, newId: string, passwordHash: string)
    returns (r: Call<ServiceResult<UserView>>)
    requires db.Valid()
    modifies db
    ensures db.Valid()
    ensures r == CreateAgencyUserOutcome(old(db.agencies), old(db.users), input, newId, passwordHash)
    ensures db.users ==
      if r.value.Ok? then old(db.users)[newId := NewUser(input, newId, passwordHash)] else old(db.users)
    ensures db.agencies == old(db.agencies) && db.vouchers == old(db.vouchers)
  {
    var err := UserInputError(input);
    if err.Some? {
      return Returned(Fail(400, err.value));
    }
    if input.agencyId !in db.agencies {
      return Returned(Fail(404, "Agência não encontrada"));
    }
    var row := NewUser(input, newId, passwordHash);
    var fault := db.CreateUser(row);
    // The agency was found just above, so the only fault left is P2002 and
    // the rethrow of any other code is never reached.
    if fault.Some? {
      return Returned(Fail(409, "Email já existe"));
    }
    r := Returned(Ok(Some(201), ViewOf(row)));
  }

  /** Once a user is created, any later request with an e-mail of the same
      normal form gets a 409, whatever agency it names. */
  lemma EmailConflictAfterCreate(
    agencies: map<string, Agency>, users: map<string, User>,
    first: CreateAgencyUserInput, firstId: string, firstHash: string,
    again: CreateAgencyUserInput, againId: string, againHash: string)
    requires CreateAgencyUserOutcome(agencies, users, first, firstId, firstHash).value.Ok?
    requires UserInputError(again).None? && again.agencyId in agencies
    requires NormalizeKey(again.email.s) == NormalizeKey(first.email.s)
    ensures var after := users[firstId := NewUser(first, firstId, firstHash)];
      CreateAgencyUserOutcome(agencies, after, again, againId, againHash) == Returned(Fail(409, "Email já existe"))
  {
    var after := users[firstId := NewUser(first, firstId, firstHash)];
    assert firstId in after && after[firstId].email == NormalizeKey(again.email.s);
  }

  /** A created user is an "ADMIN" unless "SUPERADMIN" was asked for by name:
      the route never creates an "AGENCY" user. */
  lemma CreatedUserRole(
    agencies: map<string, Agency>, users: map<string, User>,
    input: CreateAgencyUserInput, newId: string, passwordHash: string)
    requires CreateAgencyUserOutcome(agencies, users, input, newId, passwordHash).value.Ok?
    ensures var role := CreateAgencyUserOutcome(agencies, users, input, newId, passwordHash).value.data.role;
      (role == "SUPERADMIN" <==> input.role == Str("SUPERADMIN")) && (role == "ADMIN" <==> input.role != Str("SUPERADMIN"))
  {
  }

  /** The checks of `createVoucher`, first failure wins. */
  function VoucherInputError(input: CreateVoucherInput): (r: Option<string>)
    ensures input.agencyId == "" ==> r == Some(NoAgencyMessage)
    ensures input.agencyId != "" ==> r == PayloadError(input.reservationCode, input.clientName, input.flights)
    ensures r.None? ==> input.reservationCode.Str? && input.clientName.Str? && input.flights.Arr?
  {
    if input.agencyId == "" then Some(NoAgencyMessage)
    else PayloadError(input.reservationCode, input.clientName, input.flights)
  }

  /** The voucher `createVoucher` asks the database to insert, nested rows included. */
  function NewVoucher(input: CreateVoucherInput, newId: string, flights: seq<Flight>): Voucher
    requires input.reservationCode.Str? && input.clientName.Str?
  {
    Voucher(newId, input.agencyId, Trim(input.reservationCode.s), Trim(input.clientName.s),
            flights, BuildHotel(input.hotel), BuildTransfer(input.transfer))
  }

  /** What `createVoucher` returns or throws. On success the stored voucher
      has the caller's agency, the trimmed code and client name and one flight
      row per submitted flight in submission order, and the reply lists those
      flights sorted. */
  function CreateVoucherOutcome(
    agencies: map<string, Agency>, vouchers: map<string, Voucher>, input: CreateVoucherInput, newId: string)
    : (r: Call<ServiceResult<VoucherWithAgency<Agency>>>)
    ensures VoucherInputError(input).Some? ==> r == Returned(Fail(400, VoucherInputError(input).value))
    ensures VoucherInputError(input).None? && BuildFlights(input.flights.items).Thrown?
            ==> r == Thrown(BuildFlights(input.flights.items).fault)
    ensures VoucherInputError(input).None? && BuildFlights(input.flights.items).Returned?
            && (newId in vouchers || CodeTaken(vouchers, Trim(input.reservationCode.s)))
            ==> r == Returned(Fail(409, "reservationCode já existe"))
    ensures VoucherInputError(input).None? && BuildFlights(input.flights.items).Returned?
            && !(newId in vouchers || CodeTaken(vouchers, Trim(input.reservationCode.s)))
            && input.agencyId !in agencies
            ==> r == Thrown(ForeignKeyViolation)
    ensures r.Returned? && r.value.Ok? <==>
      && VoucherInputError(input).None? && BuildFlights(input.flights.items).Returned?
      && newId !in vouchers && !CodeTaken(vouchers, Trim(input.reservationCode.s))
      && input.agencyId in agencies
    ensures r.Returned? && r.value.Ok? ==>
      && VoucherInputError(input).None? && BuildFlights(input.flights.items).Returned?
      && input.agencyId in agencies
      && r.value.httpStatus == Some(201)
      && r.value.data.agency == agencies[input.agencyId]
      && var stored := NewVoucher(input, newId, BuildFlights(input.flights.items).value);
         r.value.data.voucher == stored.(flights := SortFlights(stored.flights))
  {
    var err := VoucherInputError(input);
    if err.Some? then Returned(Fail(400, err.value))
    else
      var built := BuildFlights(input.flights.items);
      if built.Thrown? then Thrown(built.fault)
      else
        var row := NewVoucher(input, newId, built.value);
        if newId in vouchers || CodeTaken(vouchers, row.reservationCode) then
          Returned(Fail(409, "reservationCode já existe"))
        else if input.agencyId !in agencies then Thrown(ForeignKeyViolation)
        else Returned(Ok(Some(201), VoucherWithAgency(row.(flights := SortFlights(row.flights)), agencies[input.agencyId])))
  }

  /** `createVoucher`. */
  method CreateVoucher(db: Store, input: CreateVoucherInput, newId: string)
    returns (r: Call<ServiceResult<VoucherWithAgency<Agency>>>)
    requires db.Valid()
    modifies db
    ensures db.Valid()
    ensures r == CreateVoucherOutcome(old(db.agencies), old(db.vouchers), input, newId)
    ensures db.vouchers ==
      if r.Returned? && r.value.Ok?
      then old(db.vouchers)[newId := NewVoucher(input, newId, BuildFlights(input.flights.items).value)]
      else old(db.vouchers)
    ensures db.agencies == old(db.agencies) && db.users == old(db.users)
  {
    var err := VoucherInputError(input);
    if err.Some? {
      return Returned(Fail(400, err.value));
    }
    var built := BuildFlights(input.flights.items);
    if built.Thrown? {
      return Thrown(built.fault);
    }
    var row := NewVoucher(input, newId, built.value);
    var fault := db.CreateVoucher(row);
    if fault.Some? {
      if Code(fault.value) == "P2002" {
        return Returned(Fail(409, "reservationCode já existe"));
      }
      return Thrown(fault.value);
    }
    r := Returned(Ok(Some(201), VoucherWithAgency(row.(flights := SortFlights(row.flights)), db.agencies[row.agencyId])));
  }

  /** A created voucher holds both an OUTBOUND and a RETURN flight, and the
      reply lists its OUTBOUND flights, then its RETURN flights, then the
      others, each group in submission order. */
  lemma CreatedVoucherFlights(
    agencies: map<string, Agency>, vouchers: map<string, Voucher>, input: CreateVoucherInput, newId: string)
    requires CreateVoucherOutcome(agencies, vouchers, input, newId).Returned?
    requires CreateVoucherOutcome(agencies, vouchers, input, newId).value.Ok?
    ensures var stored := BuildFlights(input.flights.items).value;
      var replied := CreateVoucherOutcome(agencies, vouchers, input, newId).value.data.voucher.flights;
      && (exists i :: 0 <= i < |stored| && stored[i].direction == "OUTBOUND")
      && (exists i :: 0 <= i < |stored| && stored[i].direction == "RETURN")
      && replied == WithRank(stored, 0) + WithRank(stored, 1) + WithRank(stored, 99)
  {
    var items := input.flights.items;
    assert PayloadError(input.reservationCode, input.clientName, input.flights).None?;
    BuiltFlightsHaveBothDirections(items);
    SortFlightsGroups(BuildFlights(items).value);
  }

  /** Once a voucher is created, a later valid request whose code trims to the
      same string gets a 409, whichever agency it comes from. */
  lemma CodeConflictAfterCreate(
    agencies: map<string, Agency>, vouchers: map<string, Voucher>,
    first: CreateVoucherInput, firstId: string, again: CreateVoucherInput, againId: string)
    requires CreateVoucherOutcome(agencies, vouchers, first, firstId).Returned?
    requires CreateVoucherOutcome(agencies, vouchers, first, firstId).value.Ok?
    requires VoucherInputError(again).None? && BuildFlights(again.flights.items).Returned?
    requires Trim(again.reservationCode.s) == Trim(first.reservationCode.s)
    ensures var after := vouchers[firstId := NewVoucher(first, firstId, BuildFlights(first.flights.items).value)];
      CreateVoucherOutcome(agencies, after, again, againId) == Returned(Fail(409, "reservationCode já existe"))
  {
    var after := vouchers[firstId := NewVoucher(first, firstId, BuildFlights(first.flights.items).value)];
    assert firstId in after && after[firstId].reservationCode == Trim(again.reservationCode.s);
  }

  /** `getMe`: absent for an unknown user; the agency is looked up only when
      the user has a non-empty agency id. */
  function GetMe(db: Store, userId: string): (r: Option<Me>)
    reads db
    requires db.Valid()
    ensures r.Some? <==> userId in db.users
    ensures r.Some? ==> r.value.user == ViewOf(db.users[userId])
    ensures r.Some? ==>
      var a := db.users[userId].agencyId;
      (r.value.agency.Some? <==> a.Some? && a.value != "" && a.value in db.agencies)
    ensures r.Some? && r.value.agency.Some? ==>
      db.users[userId].agencyId == Some(r.value.agency.value.id) && r.value.agency.value.id != ""
      && r.value.agency.value.id in db.agencies && db.agencies[r.value.agency.value.id] == r.value.agency.value
  {
    if userId !in db.users then None
    else
      var u := db.users[userId];
      var agency := if u.agencyId.Some? && u.agencyId.value != "" && u.agencyId.value in db.agencies
                    then Some(db.agencies[u.agencyId.value]) else None;
      Some(Me(ViewOf(u), agency))
  }

  /** `listAgencies`: every agency, nothing else. */
  function ListAgencies(db: Store): (r: set<Agency>)
    reads db
    requires db.Valid()
    ensures forall id :: id in db.agencies ==> db.agencies[id] in r
    ensures forall a :: a in r ==> a.id in db.agencies && db.agencies[a.id] == a
  {
    set id | id in db.agencies :: db.agencies[id]
  }

  /** `listVouchers`: exactly the vouchers of the given agency. */
  function ListVouchers(db: Store, agencyId: string): (r: ServiceResult<set<VoucherSummary>>)
    reads db
    ensures agencyId == "" ==> r == Fail(400, NoAgencyMessage)
    ensures agencyId != "" ==> r.Ok? && r.httpStatus.None?
    ensures r.Ok? ==> (forall s :: s in r.data ==>
      s.agencyId == agencyId && exists id :: id in db.vouchers && SummaryOf(db.vouchers[id]) == s)
    ensures r.Ok? ==>
      forall id :: id in db.vouchers && db.vouchers[id].agencyId == agencyId ==> SummaryOf(db.vouchers[id]) in r.data
  {
    if agencyId == "" then Fail(400, NoAgencyMessage)
    else Ok(None, set id | id in db.vouchers && db.vouchers[id].agencyId == agencyId :: SummaryOf(db.vouchers[id]))
  }

  /** `getVoucherById`: found only when both the id and the agency match, so
      another agency's voucher reads as not found. */
  function GetVoucherById(db: Store, agencyId: string, id: string): (r: ServiceResult<Voucher>)
    reads db
    ensures agencyId == "" ==> r == Fail(400, "Seu usuário não possui agencyId vinculado.")
    ensures agencyId != "" && id == "" ==> r == Fail(400, "ID inválido")
    ensures agencyId != "" && id != "" && !(id in db.vouchers && db.vouchers[id].agencyId == agencyId)
            ==> r == Fail(404, "Voucher não encontrado")
    ensures r.Ok? <==> agencyId != "" && id != "" && id in db.vouchers && db.vouchers[id].agencyId == agencyId
    ensures r.Ok? ==>
      && r.httpStatus.None?
      && r.data == db.vouchers[id].(flights := SortFlights(db.vouchers[id].flights))
  {
    if agencyId == "" then Fail(400, "Seu usuário não possui agencyId vinculado.")
    else if id == "" then Fail(400, "ID inválido")
    else if id !in db.vouchers || db.vouchers[id].agencyId != agencyId then Fail(404, "Voucher não encontrado")
    else
      var v := db.vouchers[id];
      Ok(None, v.(flights := SortFlights(v.flights)))
  }
}
