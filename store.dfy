/** The database as the handlers see it through the Prisma client: three
    tables keyed by id, with unique slug, e-mail and reservation code, foreign
    keys from users and vouchers to agencies, and the client's error codes. */
module Db {
  import opened Js
  import opened Flights

  datatype Agency = Agency(
    id: string,
    name: string,
    slug: Option<string>,
    phone: Option<string>,
    email: Option<string>,
    isActive: bool,
    logoUrl: Option<string>,
    primaryColor: Option<string>)

  datatype User = User(
    id: string,
    agencyId: Option<string>,
    name: string,
    email: string,
    passwordHash: string,
    role: string)

  datatype Hotel = Hotel(
    hotelName: string,
    mealPlan: Option<string>,
    roomType: Option<string>,
    checkInTime: Option<string>,
    checkOutTime: Option<string>)

  datatype Transfer = Transfer(receptiveName: Option<string>)

  /** A voucher with its nested rows, flights in the order they were created. */
  datatype Voucher = Voucher(
    id: string,
    agencyId: string,
    reservationCode: string,
    clientName: string,
    flights: seq<Flight>,
    hotel: Option<Hotel>,
    transfer: Option<Transfer>)

  /** A user as every `select` the handlers write returns it: without the
      password hash. */
  datatype UserView = UserView(id: string, agencyId: Option<string>, name: string, email: string, role: string)

  function ViewOf(u: User): UserView {
    UserView(u.id, u.agencyId, u.name, u.email, u.role)
  }

  /** A voucher read with `include: { agency: { select } }`. */
  datatype VoucherWithAgency<A> = VoucherWithAgency(voucher: Voucher, agency: A)

  /** What a database call can throw. */
  datatype Fault =
    | UniqueViolation      // a unique column (or the id) already holds the value
    | ForeignKeyViolation  // the referenced agency does not exist
    | RecordNotFound       // `update` of a row that does not exist
    | InvalidData          // the client rejects the query's data before sending it
    | TypeError            // the handler's own code failed before the query

  /** `err.code` as the Prisma client reports it; "" for errors without one. */
  function Code(f: Fault): string {
    match f
    case UniqueViolation => "P2002"
    case ForeignKeyViolation => "P2003"
    case RecordNotFound => "P2025"
    case InvalidData => ""
    case TypeError => ""
  }

  /** The result of a call that may throw. */
  datatype Call<T> = Returned(value: T) | Thrown(fault: Fault)

  /** A column assignment in `update` data: `undefined` keeps the column,
      `null` clears it, a string sets it. */
  datatype Patch = Keep | Clear | Put(value: string)

  function Apply(p: Patch, current: Option<string>): Option<string> {
    match p
    case Keep => current
    case Clear => None
    case Put(v) => Some(v)
  }

  predicate SlugTaken(agencies: map<string, Agency>, slug: Option<string>) {
    slug.Some? && exists id :: id in agencies && agencies[id].slug == slug
  }

  predicate EmailTaken(users: map<string, User>, email: string) {
    exists id :: id in users && users[id].email == email
  }

  predicate CodeTaken(vouchers: map<string, Voucher>, code: string) {
    exists id :: id in vouchers && vouchers[id].reservationCode == code
  }

  predicate SlugsUnique(agencies: map<string, Agency>) {
    forall a, b :: a in agencies && b in agencies && a != b && agencies[a].slug.Some?
      ==> agencies[a].slug != agencies[b].slug
  }

  predicate EmailsUnique(users: map<string, User>) {
    forall a, b :: a in users && b in users && a != b ==> users[a].email != users[b].email
  }

  predicate CodesUnique(vouchers: map<string, Voucher>) {
    forall a, b :: a in vouchers && b in vouchers && a != b
      ==> vouchers[a].reservationCode != vouchers[b].reservationCode
  }

  /** The user holding `email`, if any; unique because e-mails are. */
  function UserWithEmail(users: map<string, User>, email: string): (r: Option<User>)
    requires EmailsUnique(users)
    ensures r.Some? <==> EmailTaken(users, email)
    ensures r.Some? ==> exists id :: id in users && users[id] == r.value && r.value.email == email
  {
    if EmailTaken(users, email) then
      var id :| id in users && users[id].email == email;
      Some(users[id])
    else None
  }

  /** The voucher holding `code`, if any; unique because codes are. */
  function VoucherWithCode(vouchers: map<string, Voucher>, code: string): (r: Option<Voucher>)
    requires CodesUnique(vouchers)
    ensures r.Some? <==> CodeTaken(vouchers, code)
    ensures r.Some? ==> exists id :: id in vouchers && vouchers[id] == r.value && r.value.reservationCode == code
  {
    if CodeTaken(vouchers, code) then
      var id :| id in vouchers && vouchers[id].reservationCode == code;
      Some(vouchers[id])
    else None
  }

  /** Inserting a voucher under a fresh id with a free code keeps codes
      unique, and the lookup by that code then finds exactly that voucher. */
  lemma {:induction false} InsertedVoucherIsFound(vouchers: map<string, Voucher>, id: string, v: Voucher)
    requires CodesUnique(vouchers)
    requires id !in vouchers && !CodeTaken(vouchers, v.reservationCode)
    ensures CodesUnique(vouchers[id := v])
    ensures VoucherWithCode(vouchers[id := v], v.reservationCode) == Some(v)
  {
    var after := vouchers[id := v];
    forall a, b | a in after && b in after && a != b
      ensures after[a].reservationCode != after[b].reservationCode
    {
      if a == id {
        assert b in vouchers && vouchers[b] == after[b];
      } else if b == id {
        assert a in vouchers && vouchers[a] == after[a];
      }
    }
    assert id in after && after[id].reservationCode == v.reservationCode;
    var found := VoucherWithCode(after, v.reservationCode);
    var k :| k in after && after[k] == found.value && found.value.reservationCode == v.reservationCode;
    assert after[k].reservationCode == after[id].reservationCode;
    assert k == id;
  }

  /** The users after the password hash of `id` is replaced: nothing else,
      and in particular no e-mail, changes. */
  function WithPasswordHash(users: map<string, User>, id: string, hash: string): (r: map<string, User>)
    requires id in users
    ensures r.Keys == users.Keys
    ensures r[id].passwordHash == hash
    ensures forall k :: k in r ==> r[k] == users[k].(passwordHash := r[k].passwordHash)
    ensures forall k :: k in r && k != id ==> r[k] == users[k]
    ensures EmailsUnique(users) ==> EmailsUnique(r)
  {
    users[id := users[id].(passwordHash := hash)]
  }

  /** An agency after an update of its status and branding columns. */
  function Updated(a: Agency, isActive: Option<bool>, logoUrl: Patch, primaryColor: Patch): (r: Agency)
    ensures r.id == a.id && r.name == a.name && r.slug == a.slug
    ensures r.phone == a.phone && r.email == a.email
  {
    a.(isActive := isActive.GetOr(a.isActive),
       logoUrl := Apply(logoUrl, a.logoUrl),
       primaryColor := Apply(primaryColor, a.primaryColor))
  }

  class Store {
    var agencies: map<string, Agency>
    var users: map<string, User>
    var vouchers: map<string, Voucher>

    /** Keys match ids, the unique columns hold no duplicates and every
        reference to an agency resolves. */
    ghost predicate Valid()
      reads this
    {
      && (forall id :: id in agencies ==> agencies[id].id == id)
      && (forall id :: id in users ==> users[id].id == id)
      && (forall id :: id in vouchers ==> vouchers[id].id == id)
      && SlugsUnique(agencies)
      && EmailsUnique(users)
      && CodesUnique(vouchers)
      && (forall id :: id in users && users[id].agencyId.Some? ==> users[id].agencyId.value in agencies)
      && (forall id :: id in vouchers ==> vouchers[id].agencyId in agencies)
    }

    constructor ()
      ensures Valid()
      ensures agencies == map[] && users == map[] && vouchers == map[]
    {
      agencies, users, vouchers := map[], map[], map[];
    }

    /** `prisma.agency.create`: fails with P2002 when the id or the slug is taken. */
    method CreateAgency(row: Agency) returns (fault: Option<Fault>)
      requires Valid()
      modifies this
      ensures Valid()
      ensures fault.Some? <==> row.id in old(agencies) || SlugTaken(old(agencies), row.slug)
      ensures fault.Some? ==> fault.value == UniqueViolation && agencies == old(agencies)
      ensures fault.None? ==> agencies == old(agencies)[row.id := row]
      ensures users == old(users) && vouchers == old(vouchers)
    {
      if row.id in agencies || SlugTaken(agencies, row.slug) {
        return Some(UniqueViolation);
      }
      agencies := agencies[row.id := row];
      fault := None;
    }

    /** `prisma.agency.update` of the status and branding columns: P2025 when
        the id is unknown. */
    method UpdateAgency(id: string, isActive: Option<bool>, logoUrl: Patch, primaryColor: Patch)
      returns (r: Call<Agency>)
      requires Valid()
      modifies this
      ensures Valid()
      ensures id !in old(agencies) ==> r == Thrown(RecordNotFound) && agencies == old(agencies)
      ensures id in old(agencies) ==>
        && r == Returned(Updated(old(agencies)[id], isActive, logoUrl, primaryColor))
        && agencies == old(agencies)[id := r.value]
      ensures users == old(users) && vouchers == old(vouchers)
    {
      if id !in agencies {
        return Thrown(RecordNotFound);
      }
      var a := Updated(agencies[id], isActive, logoUrl, primaryColor);
      agencies := agencies[id := a];
      r := Returned(a);
    }

    /** `prisma.user.create`: P2002 when the id or the e-mail is taken, then
        P2003 when the agency does not exist. */
    method CreateUser(row: User) returns (fault: Option<Fault>)
      requires Valid()
      modifies this
      ensures Valid()
      ensures row.id in old(users) || EmailTaken(old(users), row.email) ==> fault == Some(UniqueViolation)
      ensures !(row.id in old(users) || EmailTaken(old(users), row.email)) ==>
        fault == (if row.agencyId.Some? && row.agencyId.value !in agencies then Some(ForeignKeyViolation) else None)
      ensures users == if fault.None? then old(users)[row.id := row] else old(users)
      ensures agencies == old(agencies) && vouchers == old(vouchers)
    {
      if row.id in users || EmailTaken(users, row.email) {
        return Some(UniqueViolation);
      }
      if row.agencyId.Some? && row.agencyId.value !in agencies {
        return Some(ForeignKeyViolation);
      }
      users := users[row.id := row];
      fault := None;
    }

    /** `prisma.user.update` of the password hash alone: P2025 when the id is unknown. */
    method SetPasswordHash(id: string, hash: string) returns (fault: Option<Fault>)
      requires Valid()
      modifies this
      ensures Valid()
      ensures fault.Some? <==> id !in old(users)
      ensures fault.Some? ==> fault.value == RecordNotFound && users == old(users)
      ensures fault.None? ==> users == WithPasswordHash(old(users), id, hash)
      ensures agencies == old(agencies) && vouchers == old(vouchers)
    {
      if id !in users {
        return Some(RecordNotFound);
      }
      users := WithPasswordHash(users, id, hash);
      fault := None;
    }

    /** `prisma.voucher.create` with nested rows, all or nothing: P2002 when
        the id or the reservation code is taken, then P2003 when the agency
        does not exist. */
    method CreateVoucher(row: Voucher) returns (fault: Option<Fault>)
      requires Valid()
      modifies this
      ensures Valid()
      ensures row.id in old(vouchers) || CodeTaken(old(vouchers), row.reservationCode) ==> fault == Some(UniqueViolation)
      ensures !(row.id in old(vouchers) || CodeTaken(old(vouchers), row.reservationCode)) ==>
        fault == (if row.agencyId !in agencies then Some(ForeignKeyViolation) else None)
      ensures vouchers == if fault.None? then old(vouchers)[row.id := row] else old(vouchers)
      ensures agencies == old(agencies) && users == old(users)
    {
      if row.id in vouchers || CodeTaken(vouchers, row.reservationCode) {
        return Some(UniqueViolation);
      }
      if row.agencyId !in agencies {
        return Some(ForeignKeyViolation);
      }
      vouchers := vouchers[row.id := row];
      fault := None;
    }

    /** `prisma.user.findUnique({ where: { email } })`. */
    method FindUserByEmail(email: string) returns (u: Option<User>)
      requires Valid()
      ensures u == UserWithEmail(users, email)
      ensures u.Some? ==> u.value.id in users && users[u.value.id] == u.value && u.value.email == email
    {
      u := UserWithEmail(users, email);
    }

    /** `prisma.voucher.findUnique({ where: { reservationCode } })`. */
    method FindVoucherByCode(code: string) returns (v: Option<Voucher>)
      requires Valid()
      ensures v == VoucherWithCode(vouchers, code)
      ensures v.Some? ==> v.value.id in vouchers && vouchers[v.value.id] == v.value
      ensures v.Some? ==> v.value.reservationCode == code && v.value.agencyId in agencies
    {
      v := VoucherWithCode(vouchers, code);
    }
  }
}
