# vouchercard request layer, in Dafny

A model of the request-validation, normalisation and decision layer of
vouchercard, a travel-voucher back end. It covers the admin service (agencies,
agency users, vouchers), the admin controller, the older admin router, the
login and change-password routes, the public voucher lookup, and the
`requireAuth` and `requireRole` middlewares. The model proves properties
about all of them.

The database is a `Db.Store` class. It holds three maps keyed by id:
agencies, users and vouchers. Its invariant `Valid()` says that each key
matches its row's id, that slugs, e-mails and reservation codes are unique,
and that every user and voucher points at an existing agency. Its methods
stand for the Prisma calls the handlers make, and fail the way the client
does:

- P2002 for a taken unique column or id;
- P2003 for a missing agency;
- P2025 for an update of an unknown row.

Each handler that writes is a method, proved against an `...Outcome`
function. That function gives the reply or the thrown fault in terms of the
old tables. The method's contract also states the new tables exactly:

- a success writes exactly one row;
- a failure writes nothing;
- the other tables are unchanged.

Read-only handlers are functions over the store, or methods proved equal to
such a function. JavaScript's semantics are written out in module `Js`:
truthiness, `typeof`, `??`, `?.`, `String(v)`, `v?.toString()`, `trim`,
`toLowerCase` and `replace`.

The following become parameters:

- generated ids: `newId`;
- `bcrypt.hash`: its result `newHash` / `passwordHash`;
- `bcrypt.compare`: `matches`;
- `signJwt`: `sign`;
- `verifyJwt`: `verify`, which is absent when the token is rejected.

`sortFlights` is a stable insertion sort on a `seq`. Sorting a sequence value
cannot alter its argument, as the source's sort of a copy `[...flights]`
does not. It is proved to return a sorted permutation. It is also proved to
equal the OUTBOUND rows, then the RETURN rows, then the others, each group
in input order.

## Model

| member | source | states |
|---|---|---|
| Flights.InsertByRank | src/modules/admin/admin.service.ts:46-50 | inserting into a rank-sorted sequence keeps it sorted and adds exactly one occurrence of the row |
| Flights.SortFlights | src/modules/admin/admin.service.ts:46-50 | the result is sorted by direction rank (OUTBOUND 0, RETURN 1, anything else 99) and is a permutation of the input |
| Flights.SortFlightsStable | src/modules/admin/admin.service.ts:45-49 | the rows of each rank keep their input order |
| Flights.SortedIsGrouped | src/modules/admin/admin.service.ts:45-49 | a rank-sorted sequence is its rank-0 rows, then its rank-1 rows, then its rank-99 rows |
| Flights.SortFlightsGroups | src/modules/admin/admin.service.ts:45-50 | the sort returns exactly the OUTBOUND rows, then the RETURN rows, then all others, each group in input order |
| Flights.OutboundThenReturnThenOthers | src/modules/admin/admin.service.ts:45-49 | in the sorted result no OUTBOUND row follows a non-OUTBOUND one, and no OUTBOUND or RETURN row follows a row of another direction |
| Js.OptToString | src/modules/admin/admin.service.ts:315-319 | `v?.toString()` is absent exactly for null and undefined, and is the string itself for a string |
| Js.Trim | src/modules/admin/admin.service.ts:117 | `trim` returns the slice of the input that starts after its leading white space and is followed only by white space; it has no white space at either end, and it is empty exactly when the input is all white space |
| Js.TrimIdempotent | src/modules/admin/admin.service.ts:117 | trimming twice is trimming once |
| Js.ToLower | src/modules/admin/admin.service.ts:118 | `toLowerCase` keeps the length, leaves no capital letter, keeps every other character, and moves each ASCII or Latin-1 capital up by 32 code points to its small letter |
| Js.NormalizeKey | src/modules/admin/admin.service.ts:118 | `trim().toLowerCase()` has the length of the trimmed input and holds, position by position, the lowered character of the trimmed input; it has no capitals and no white space at either end |
| Js.NormalizeKeyIdempotent | src/modules/admin/admin.service.ts:243 | a normalised slug or e-mail is its own normal form |
| Js.IndexFrom | src/middlewares/requireAuth.ts:30 | finds the first occurrence of the pattern at or after the start, or reports that there is none |
| Js.ReplaceLeadingPrefix | src/middlewares/requireAuth.ts:30 | when the header starts with the pattern, `replace` removes exactly that prefix |
| Db.UserWithEmail | src/routes/auth.ts:25-27 | the lookup by e-mail finds a user iff one holds that e-mail, and returns that user |
| Db.VoucherWithCode | src/routes/public.ts:18-36 | the lookup by code finds a voucher iff one holds that code, and returns that voucher |
| Db.InsertedVoucherIsFound | src/routes/public.ts:18-19 | inserting a voucher under a fresh id with a free code keeps codes unique, and the lookup by that code then returns exactly that voucher |
| Db.WithPasswordHash | src/routes/auth.ts:99-102 | replacing a password hash changes nothing else and keeps e-mails unique |
| Db.Updated | src/modules/admin/admin.service.ts:189-194 | an agency update never touches id, name, slug, phone or e-mail |
| Db.Store.CreateAgency | src/modules/admin/admin.service.ts:115-133 | P2002 iff the id or the slug is taken, with nothing written; otherwise exactly the new row is added |
| Db.Store.UpdateAgency | src/modules/admin/admin.service.ts:154-168 | P2025 for an unknown id; otherwise only that agency is replaced by its updated row |
| Db.Store.CreateUser | src/modules/admin/admin.service.ts:239-255 | P2002 for a taken id or e-mail, then P2003 for a missing agency, with nothing written; otherwise exactly the new row is added |
| Db.Store.SetPasswordHash | src/routes/auth.ts:99-102 | P2025 for an unknown user; otherwise only that user's hash changes |
| Db.Store.CreateVoucher | src/modules/admin/admin.service.ts:307-354 | P2002 for a taken id or code, then P2003 for a missing agency, with nothing written; otherwise exactly the new voucher is added with its nested rows |
| Db.Store.FindUserByEmail | src/routes/auth.ts:25-27 | returns the user holding the e-mail, if any, and changes nothing |
| Db.Store.FindVoucherByCode | src/routes/public.ts:18-36 | returns the voucher holding the code, if any, whose agency exists |
| VoucherInput.PayloadError | src/modules/admin/admin.service.ts:286-304 | the checks run in the order reservationCode, clientName, non-empty flights array, both OUTBOUND and RETURN present; the payload passes iff all hold |
| VoucherInput.BuildFlights | src/modules/admin/admin.service.ts:313-320 | throws iff some element has no string direction; otherwise yields one row per element in order, with its direction and optional fields copied |
| VoucherInput.BuiltFlightsHaveBothDirections | src/modules/admin/admin.service.ts:296-320 | rows built from a validated payload hold an OUTBOUND and a RETURN flight |
| VoucherInput.BuildHotel | src/modules/admin/admin.service.ts:322-332 | a hotel row exists iff `hotel` is truthy; a missing or null hotelName becomes "", a string one is kept; mealPlan, roomType, checkInTime and checkOutTime are each `?.toString()` of the submitted field |
| VoucherInput.BuildTransfer | src/modules/admin/admin.service.ts:333-335 | a transfer row exists iff `transfer` is truthy, and receptiveName is copied |
| VoucherInput.BlankCodePasses | src/modules/admin/admin.service.ts:286-310 | a code of blanks passes validation and is stored as "" |
| AdminService.FinalRole | src/modules/admin/admin.service.ts:41-43 | the stored role is SUPERADMIN or ADMIN, and is the requested one exactly when `isUserRole` holds |
| AdminService.BrandingPatch | src/modules/admin/admin.service.ts:180-187 | undefined keeps the column, null clears it, any other value stores `String(value)` |
| AdminService.OptionalContact | src/modules/admin/admin.service.ts:119-120 | a falsy phone or e-mail is stored as null; a non-empty string is stored unchanged |
| AdminService.CreateAgencyOutcome | src/modules/admin/admin.service.ts:104-142 | name is checked before slug (400 each); a taken slug gives 409; it succeeds iff both are non-empty strings and the normalised slug is free; the row holds the trimmed name, the trimmed lower-cased slug, and isActive; it never throws |
| AdminService.CreateAgency | src/modules/admin/admin.service.ts:104-142 | answers as CreateAgencyOutcome; only a success writes, and it writes exactly the returned agency |
| AdminService.CreatedSlugIsNormal | src/modules/admin/admin.service.ts:118 | the stored slug is its own trim-and-lower-case |
| AdminService.SlugConflictAfterCreate | src/modules/admin/admin.service.ts:136-139 | after a create, any request whose slug has the same normal form gets 409 |
| AdminService.UpdateAgencyStatusOutcome | src/modules/admin/admin.service.ts:144-171 | agencyId is checked before isActive (400 each); an unknown agency throws P2025; success changes only isActive |
| AdminService.UpdateAgencyStatus | src/modules/admin/admin.service.ts:144-171 | answers as UpdateAgencyStatusOutcome; only a success writes, and only that agency |
| AdminService.UpdateAgencyBrandingOutcome | src/modules/admin/admin.service.ts:173-209 | each branding column follows its own tri-state value alone; every other column is unchanged; an unknown agency throws P2025 |
| AdminService.UpdateAgencyBranding | src/modules/admin/admin.service.ts:173-209 | answers as UpdateAgencyBrandingOutcome; only a success writes, and only that agency |
| AdminService.UserInputError | src/modules/admin/admin.service.ts:214-225 | agencyId, name, email, then password of at least 6 characters; the first failure names its field |
| AdminService.CreateAgencyUserOutcome | src/modules/admin/admin.service.ts:211-264 | 400s come first, then 404 for an unknown agency, then 409 for a taken e-mail; success returns the user without its hash, with the trimmed name, the normalised e-mail and the final role; it never throws |
| AdminService.CreateAgencyUser | src/modules/admin/admin.service.ts:211-264 | answers as CreateAgencyUserOutcome; only a success writes, and it writes exactly the new user |
| AdminService.EmailConflictAfterCreate | src/modules/admin/admin.service.ts:258-261 | after a create, any valid request with an e-mail of the same normal form gets 409 |
| AdminService.CreatedUserRole | src/modules/admin/admin.service.ts:236 | a created user is SUPERADMIN only when that exact string was sent, and ADMIN otherwise, "AGENCY" included |
| AdminService.VoucherInputError | src/modules/admin/admin.service.ts:279-304 | a missing agency is reported before any payload check |
| AdminService.CreateVoucherOutcome | src/modules/admin/admin.service.ts:266-363 | 400s in check order; a bad flight element throws; 409 for a taken code or id; P2003 for a missing agency; success happens exactly when every check passes, the code and id are free and the agency exists, and then stores the trimmed code and client name with the caller's agency and replies with the flights sorted |
| AdminService.CreateVoucher | src/modules/admin/admin.service.ts:266-363 | answers as CreateVoucherOutcome; only a success writes, and it writes exactly the new voucher with unsorted flights |
| AdminService.CreatedVoucherFlights | src/modules/admin/admin.service.ts:296-356 | a created voucher holds OUTBOUND and RETURN flights, and the reply lists OUTBOUND, then RETURN, then the rest, each group in submission order |
| AdminService.CodeConflictAfterCreate | src/modules/admin/admin.service.ts:357-360 | after a create, a valid request whose code trims to the same string gets 409, whatever its agency |
| AdminService.GetMe | src/modules/admin/admin.service.ts:52-85 | absent iff the user is unknown; the user is returned without its hash; the agency is present exactly when the user's agencyId is a non-empty id of an existing agency, and it is that agency |
| AdminService.ListAgencies | src/modules/admin/admin.service.ts:87-102 | exactly the stored agencies |
| AdminService.ListVouchers | src/modules/admin/admin.service.ts:365-380 | 400 without an agency; otherwise exactly the summaries of that agency's vouchers |
| AdminService.GetVoucherById | src/modules/admin/admin.service.ts:382-404 | 400 without an agency or id; found iff the id exists and belongs to that agency, otherwise 404; flights sorted |
| AdminController.Reply | src/modules/admin/admin.controller.ts:9-14 | a failure sends its status and `{message}`; a success sends its data with `status ?? 200` |
| AdminController.ReplyCall | src/modules/admin/admin.controller.ts:24-27 | a thrown error becomes 500 "Erro interno" |
| AdminController.CallerAgency | src/modules/admin/admin.controller.ts:98 | the agency comes from the authenticated user only, and is "" when absent or empty |
| AdminController.PathParam | src/modules/admin/admin.controller.ts:53 | a missing path parameter becomes ""; a present one is trimmed |
| AdminController.GetMe | src/modules/admin/admin.controller.ts:16-28 | 401 without a user id; 404 for an unknown user; 200 with the user otherwise |
| AdminController.ListAgencies | src/modules/admin/admin.controller.ts:30-38 | 200 with every agency, and every listed agency is the stored row under its own id |
| AdminController.CreateAgency | src/modules/admin/admin.controller.ts:40-48 | replies as the service outcome for the body's fields; never 500 |
| AdminController.UpdateAgencyStatus | src/modules/admin/admin.controller.ts:50-61 | the trimmed path agencyId and `body.isActive` go to the service; an unknown agency gets 500 and no write |
| AdminController.UpdateAgencyBranding | src/modules/admin/admin.controller.ts:63-75 | the trimmed path agencyId and the body's two branding fields go to the service |
| AdminController.CreateAgencyUser | src/modules/admin/admin.controller.ts:77-92 | the trimmed path agencyId and the body's fields go to the service; the status is 201, 400, 404 or 409; a 201 adds exactly the new user row built from those fields, and nothing else writes |
| AdminController.CreateVoucher | src/modules/admin/admin.controller.ts:94-110 | a created voucher always belongs to the caller's own agency, whatever the body says; a 201 adds exactly the row built from the body's fields and the caller's agency, and nothing else writes |
| AdminController.ListVouchers | src/modules/admin/admin.controller.ts:112-122 | only summaries of stored vouchers of the caller's agency are listed, and all of them; without an agency the reply is 400 |
| AdminController.GetVoucherById | src/modules/admin/admin.controller.ts:124-135 | 200 iff the trimmed id names a voucher of the caller's own agency; another agency's voucher gets 404 |
| AdminRoutes.PostAgenciesOutcome | src/routes/admin.ts:10-31 | 400 for a missing or non-string name; otherwise 201 with the trimmed name, no slug and `?.toString()` contacts; an id collision gets 500 |
| AdminRoutes.PostAgencies | src/routes/admin.ts:10-31 | answers as PostAgenciesOutcome; only a 201 writes |
| AdminRoutes.LegacyAgencyLeavesSlugsFree | src/routes/admin.ts:18-24 | an agency from the older route never takes a slug |
| AdminRoutes.EarlyReply | src/routes/admin.ts:52-88 | the checks before the insert, in order: agencyId, then the payload chain (400 each), then a flight element the client refuses (500); none of them when all pass |
| AdminRoutes.InsertReply | src/routes/admin.ts:75-121 | the insert answers 201 with the row iff its id and code are free and its agency exists; a taken id or code is the 409, and a missing agency the catch-all 500 |
| AdminRoutes.InsertVoucher | src/routes/admin.ts:75-121 | answers as InsertReply; only a 201 writes, and it writes exactly the row |
| AdminRoutes.PostVouchersOutcome | src/routes/admin.ts:48-123 | the body's agencyId is checked first, then the same payload chain; bad flights get 500, a taken code 409, a missing agency 500; 201 happens exactly when the checks pass, the code and id are free and the body's agency exists, and it returns the stored row unsorted |
| AdminRoutes.PostVouchers | src/routes/admin.ts:48-123 | answers as PostVouchersOutcome; only a 201 writes, and it writes exactly the returned row |
| AdminRoutes.LegacyAgreesWithService | src/routes/admin.ts:75-121 | for the same payload and agency, the older route succeeds iff the service does; both store the same voucher; the service replies with the same row, flights sorted |
| AuthRoutes.ClaimsOf | src/routes/auth.ts:42-46 | the signed payload is exactly the user's id, agency and role |
| AuthRoutes.LoginOutcome | src/routes/auth.ts:13-63 | email is checked before password (400 each); the lookup uses the normalised e-mail; an unknown user and a wrong password get the identical 401; success returns the token signed over the user's claims, and the user without its hash |
| AuthRoutes.Login | src/routes/auth.ts:13-63 | answers as LoginOutcome against the current users |
| AuthRoutes.IssuedTokenAuthenticates | src/middlewares/requireAuth.ts:26-41 | a token issued at login and sent as "Bearer <token>" passes requireAuth with the user's identity |
| AuthRoutes.ChangePasswordOutcome | src/routes/auth.ts:70-109 | 401 without a user id; then the 400s for currentPassword and newPassword (at least 6 characters); then 404; then 401 "Senha atual incorreta"; 200 iff all pass |
| AuthRoutes.ChangePassword | src/routes/auth.ts:70-109 | answers as ChangePasswordOutcome; only a 200 writes, and it replaces only the caller's hash |
| AuthRoutes.NewPasswordLogsIn | src/routes/auth.ts:92-102 | after a successful change, login with the new password succeeds with the same identity |
| PublicRoutes.PublicAgencyOf | src/routes/public.ts:24-33 | the public agency view copies id, name, slug, phone, e-mail, logoUrl and primaryColor, and has no isActive |
| PublicRoutes.PublicVoucherOutcome | src/routes/public.ts:10-53 | 400 for a blank code; exact match on the trimmed code; 404 on a miss; otherwise the voucher with sorted flights and the public agency view, whatever the agency's status |
| PublicRoutes.GetPublicVoucher | src/routes/public.ts:10-53 | answers as PublicVoucherOutcome and changes nothing |
| PublicRoutes.InsertedVoucherIsServed | src/routes/public.ts:12-48 | after a voucher is inserted under a fresh id with a free code, any parameter that trims to that code is served that voucher, flights sorted, with its agency's public view |
| PublicRoutes.CreatedVoucherIsPublic | src/routes/public.ts:12-48 | a voucher created by the service can be fetched by its code, blanks around it allowed; the public reply carries the creation reply's flights in the same order |
| PublicRoutes.BlankCodeNeverServed | src/routes/public.ts:14-16 | the public route never serves a voucher whose code is "" |
| Middleware.BearerToken | src/middlewares/requireAuth.ts:26-30 | a token exists iff the header starts with the case-sensitive "Bearer "; it is the rest of the header, trimmed |
| Middleware.Authenticate | src/middlewares/requireAuth.ts:23-45 | no token gives 401 "Token ausente"; a rejected token gives 401 "Token inválido ou expirado"; otherwise the user is exactly the token's userId, agencyId and role |
| Middleware.RoleGate | src/middlewares/requireRole.ts:4-11 | the request passes iff a user is present with a non-empty role that is in the list by exact match; otherwise 403 "Sem permissão" |
| Middleware.RoleGateDeniesByDefault | src/middlewares/requireRole.ts:6-8 | an empty list, or a request with no user, is always denied |
| Middleware.Exchange.RequireAuth | src/middlewares/requireAuth.ts:23-45 | on success it sets `req.user` and calls `next` once; on failure it sends the 401, leaves `req.user` unset and does not call `next` |
| Middleware.Exchange.RequireRole | src/middlewares/requireRole.ts:4-11 | `next` is called exactly when the gate passes, otherwise the 403 is sent |

## Left out

- Password hashing, token signing and verification are parameters. The model does not cover secrets, signatures or token expiry. `IssuedTokenAuthenticates` assumes that `verify` recovers what `sign` signed.
- Generated ids are parameters. A generated id that collides with an existing one is treated as a unique violation.
- Express routing, the mounting of routers and the choice of roles per route are not modelled. Neither is the `res.status().json()` plumbing: each handler returns a status and a body.
- async/await and logging are not modelled; each handler runs sequentially.
- `createdAt` is not modelled, and neither is the newest-first ordering of `listAgencies` and `listVouchers`. Both results are sets.
- AdminService.ListVouchers: returns voucher summaries (id, agency, code, client name) without the other scalar columns of the row.
- The database schema is not part of this model. The model assumes that:
  - any string is a valid direction;
  - optional columns are nullable;
  - isActive defaults to true;
  - slug, e-mail and reservationCode are globally unique.
- Numbers in request bodies are integers, and floating-point rendering in `String(v)` is not modelled.
- String lengths count code points, not UTF-16 units, so the 6-character password minimum is measured in code points.
- `toLowerCase` lowers only ASCII and Latin-1 capitals.
- Exceptions that the model does not represent are left out: the database being unreachable, and `toString` being overridden on a submitted object. These would lead to the 500 paths of `getMe` and `listAgencies`.
- The project's written description lists features that the code does not contain. The model follows the code. It does not model:
  - case-insensitive public lookup;
  - hiding vouchers of inactive agencies;
  - blocking logins of users with an inactive or missing agency;
  - connection segments and `segmentOrder`;
  - rate limiting;
  - logo upload.
- Flights.SortFlights / Flights.DirectionRank: rank every direction other than OUTBOUND and RETURN as 99. In the source, the rank table is a plain object literal (`flightOrder` at src/modules/admin/admin.service.ts:45, `order` at src/routes/public.ts:43). A direction that names an inherited member of `Object.prototype` ("toString", "constructor", "valueOf", "hasOwnProperty", "__proto__", …) therefore looks up a function, not `undefined`. The comparator then yields NaN, and the order `Array.prototype.sort` produces is implementation-defined. The ordering lemmas hold for every other direction.
- AdminService.CreatedVoucherFlights / PublicRoutes.CreatedVoucherIsPublic: assume the database returns a voucher's included flights in insertion order. The source asks for `include: { flights: true }` with no `orderBy` (src/modules/admin/admin.service.ts:337-338, src/routes/public.ts:20-21, src/routes/admin.ts:109). So the order of the flights the database returns is not fixed, and "each group in submission order" holds only under that assumption.
- A hotel or transfer row is created when the submitted value is truthy. A non-nullish falsy value such as `0` or `""` creates no row. This follows the code, `hotelInput ? … : undefined`.
