# Booking marketplace user router — a Dafny model

This project models the `/api/user` router of a booking-marketplace backend
(an Express application over MySQL): the decisions each request handler makes
around its database calls. Users sign up and log in. Login sets a JWT session
cookie. Logged-in users create and edit places and book them.

The model has five parts.

- `primitives.dfy` (module `Primitives`): the `Option` and `Result` types and
  the session-token claims `{ id, email, name }`. It also holds the library
  calls the router makes, kept opaque as the `Crypto` datatype. Its fields are
  `verify` and `sign` (jsonwebtoken) and `hash` and `compare` (bcryptjs).
  Signing and verifying read the clock, so a `Crypto` value is passed with
  each request.
- `email_format.dfy` (module `EmailFormat`): the sign-up e-mail pattern
  `^[^\s@]+@[^\s@]+\.[^\s@]+$` as a string predicate. A lemma proves it
  equivalent to a character-level reading: no white space, exactly one `@`,
  not first, and a `.` strictly inside the part after it.
- `tables.dfy` (module `Tables`): the `users`, `places` and `bookings` rows.
  It also holds the SQL the handlers run, as functions over rows kept in
  insertion order: `SELECT … WHERE`, "first row of the result", and the
  place `UPDATE … WHERE user_email = ?`.
- `user_route.dfy` (module `UserRoute`): token resolution
  (`getUserDataFromReq`), the sign-up input checks, and the class `Store`.
  `Store` holds the three tables and their auto-increment counters and has one
  method per handler. Each method returns the status, JSON body and cookie the
  handler sends. Methods that write state their whole new state. `Store.Valid`
  is kept by every method: e-mails are unique among users, and ids ascend
  below each table's counter.
- `scenarios.dfy` (module `RouteScenarios`): request sequences derived from
  the handlers' contracts alone. They cover a repeated sign-up, sign-up then
  login, and one user editing another user's place.

What the handlers do that their comments or names do not suggest:

- Token failures are not mapped to 401/403 throughout. GET `/profile` answers
  500, never 403: `getUserDataFromReq` rejects with a plain `Error`, so the
  `JsonWebTokenError` test in its catch block never holds. POST `/places`
  answers 500 with the serialised error `{}`. GET `/user-places` answers 401
  only when the cookie is absent or empty, and 500 when verification fails.
  PUT `/places` answers 403. POST `/bookings` resolves the token outside its
  `try`, so a failure rejects the handler and no response is sent
  (`Completion.Rejected`).
- The place update is not scoped to the place id and the verified owner. Its
  WHERE clause binds `place.userEmail`. The row read back has a `user_email`
  column and no `userEmail` property, so the bound value is `undefined`. The
  driver's `query` sends that as SQL `NULL`, and `user_email = NULL` selects
  no row. The model states this as written. `UpdateWhereOwner` is called with
  key `None`, and `Store.UpdatePlace` ensures that rows owned by other e-mails
  are untouched. Because of the NULL key, it also ensures the table is
  unchanged even on the 200 "ok" path (`Tables.NullKeyUpdatesNothing`).
  The statement at routes/v1/userRoute.js:380 is keyed by owner alone, so even
  with the binding corrected to `place.user_email` it would rewrite every
  place of that owner, not only the one with the requested `id`
  (`Tables.UpdateWhereOwnerExact`).
- Booking creation checks neither the date order, nor the guest count, nor
  that the place exists. It stores the client's price. The model does the same.

## Model

| member | source | states |
|---|---|---|
| `EmailFormat.IsEmailShape` | routes/v1/userRoute.js:81-82 | the sign-up pattern itself; a string it accepts has at least 5 characters and starts and ends with a character that is neither white space nor `@` |
| `EmailFormat.EmailShapeCharacterization` | routes/v1/userRoute.js:81-84 | the e-mail pattern holds exactly when the string has no white space, exactly one `@`, not first, and a `.` after it that is neither first nor last in the domain part |
| `EmailFormat.MatchImpliesCharacters` | routes/v1/userRoute.js:81 | a string matching the pattern has no white space, only one `@`, and an inner `.` after it |
| `EmailFormat.CharactersImplyMatch` | routes/v1/userRoute.js:81 | a string with those character properties matches the pattern |
| `EmailFormat.TwoAtSignsRejected` | routes/v1/userRoute.js:81-84 | a string with two `@` is refused as an invalid e-mail |
| `EmailFormat.SpaceRejected` | routes/v1/userRoute.js:81-84 | a string with a white-space character anywhere is refused as an invalid e-mail |
| `Tables.Select` | routes/v1/userRoute.js:319-320 | `SELECT … WHERE c` returns exactly the rows satisfying `c`, never more rows than the table, and all rows exactly when every row satisfies `c` |
| `Tables.SelectCounts` | routes/v1/userRoute.js:319-320 | the result of `SELECT … WHERE c` holds each satisfying row as many times as the table holds it, and no other row |
| `Tables.FirstWhere` | routes/v1/userRoute.js:365-371 | `rows[0]` of a `SELECT … WHERE c` is absent exactly when no row satisfies `c`; otherwise it is the first row that does |
| `Tables.UpdateWhereOwner` | routes/v1/userRoute.js:379-394 | the update keeps every row's id and owner, and changes only rows whose `user_email` equals the bound key |
| `Tables.NullKeyUpdatesNothing` | routes/v1/userRoute.js:392 | bound to NULL, the update changes no row |
| `Tables.UpdateWhereOwnerExact` | routes/v1/userRoute.js:380 | bound to an e-mail, the update rewrites every row of that owner with the new details and no other row |
| `Tables.AppendFreshEmail` | routes/v1/userRoute.js:96-106 | inserting a user whose e-mail no row has keeps e-mails unique |
| `Tables.AppendNextId` | routes/v1/userRoute.js:296-299 | inserting a row with the counter's id keeps ids ascending and below the advanced counter |
| `UserRoute.ErrorMessage` | routes/v1/userRoute.js:53-58 | the rejection message is "Token not provided" exactly for a missing token; a verification failure's message is the fixed prefix followed by the library's own message |
| `UserRoute.EmailTaken` | routes/v1/userRoute.js:96-99 | an e-mail is taken exactly when `SELECT email FROM users WHERE email = ?` returns at least one row |
| `UserRoute.ResolveToken` | routes/v1/userRoute.js:48-63 | an absent or empty token fails as "not provided"; otherwise it fails exactly when verification fails, with the library's message; on success the verified claims come back unchanged |
| `UserRoute.SignUpInputError` | routes/v1/userRoute.js:76-90 | input passes exactly when name, e-mail and password are present, the e-mail has the required shape and the password has at least 8 characters; the first failing check, in that order, picks the message |
| `UserRoute.Store.SignUp` | routes/v1/userRoute.js:73-113 | invalid input gives 400, an e-mail already in `users` gives 409, and neither changes any table; otherwise exactly one user is appended with the hashed password and the reply (201) holds only name and e-mail; e-mails stay unique |
| `UserRoute.Store.Login` | routes/v1/userRoute.js:116-171 | 400 for a missing e-mail or password, 404 for an unknown e-mail, 401 for a failed password comparison, 500 when signing fails; otherwise 200 with an http-only `token` cookie of 24·60·60·1000 ms whose token signs exactly the stored user's `{id, email, name}` for one day; no cookie on any other path |
| `UserRoute.Store.Profile` | routes/v1/userRoute.js:174-205 | never 403: any token failure gives 500 with the resolver's message; a verified e-mail with no user gives 404, otherwise 200 with that e-mail |
| `UserRoute.Store.CreatePlace` | routes/v1/userRoute.js:259-304 | a token failure gives 500 and inserts nothing; otherwise exactly one place is appended, owned by the token's e-mail whatever the body holds, and its new id is returned |
| `UserRoute.Store.UserPlaces` | routes/v1/userRoute.js:307-328 | 401 without a token, 500 when verification fails, otherwise 200 with exactly the places owned by the token's e-mail, each as often as the table holds it |
| `UserRoute.Store.PlaceByTitle` | routes/v1/userRoute.js:330-343 | 404 exactly when no place has the title; otherwise 200 with the first place that has it |
| `UserRoute.Store.UpdatePlace` | routes/v1/userRoute.js:345-400 | 403 on a verification failure, 404 when no place has the id, 403 when the token's e-mail is not the place's owner, each leaving places unchanged; on 200 no place owned by another e-mail changes, and as written (NULL key) no place changes at all |
| `UserRoute.Store.ListPlaces` | routes/v1/userRoute.js:402-424 | 200 with every place when no title is given, otherwise exactly the places with that title, each as often as the table holds it |
| `UserRoute.Store.ListBookings` | routes/v1/userRoute.js:426-437 | 200 with every booking, with no token check |
| `UserRoute.Store.CreateBooking` | routes/v1/userRoute.js:439-465 | a token failure rejects the handler with no response and inserts nothing; otherwise exactly one booking is appended, with the body's fields and `user_id` set to the token's e-mail, and 201 with its id |
| `RouteScenarios.SignUpTwice` | routes/v1/userRoute.js:96-106 | the same valid sign-up sent twice succeeds at most once; the second gets 409 and the table grows by at most one row |
| `RouteScenarios.SignUpThenLogIn` | routes/v1/userRoute.js:93-160 | a fresh user logging in with the sign-up password gets a token signing the new row's id, e-mail and name |
| `RouteScenarios.ForeignUpdateRefused` | routes/v1/userRoute.js:274-377 | after user A creates a place, user B's update of it gets 403 and the places table is as A's request left it |

## Left out

- Tables.Select: with `Tables.SelectCounts`, states which rows the result contains and how often, not that they keep table order; `Store.UserPlaces` and `Store.ListPlaces` inherit this.
- Database failures. The tables are in memory and never fail, so the `catch` branches that answer 500 for driver errors are unreachable in the model. Token failures, which reach the same branches, are modelled.
- Absent body fields of POST `/places`, PUT `/places` and POST `/bookings`. Their details (`PlaceDetails`, `BookingDetails`) are modelled as always present. In the source, an absent place field makes the prepared insert of POST `/places` (`db.execute`) fail with 500, while an absent booking field is stored as NULL by `db.query` and the reply is still 201. The table schema, with its column types and constraints, is not part of this model.
- MySQL collations. `WHERE email = ?` and the other string comparisons are modelled as exact equality; case- and trailing-space-insensitive collations are not modelled.
- JSON serialisation of the photo and perk lists, which are stored as given.
- JWT and bcrypt internals: signature, expiry checking, the sign/verify round trip, and salting. They are the opaque `Crypto` functions. Only the token lifetime (one day) and the claims passed to `sign` are modelled.
- Password length. JavaScript counts UTF-16 code units, while Dafny strings count Unicode scalar values, so the two differ for characters outside the Basic Multilingual Plane.
- Non-string request values, such as a number or array where a string is expected. JavaScript truthiness is modelled for strings only: absent or empty.
- What follows after POST `/bookings` rejects. Under Express 4, which the `app.all("*")` route at index.js:33 suggests, the rejection is unhandled, and since Node 15 an unhandled rejection ends the process by default rather than only leaving the request unanswered. The Express and Node versions are not part of this model.
- The cookie's `secure` and `sameSite` attributes. They depend on `NODE_ENV`.
- Concurrency. This covers the race between the e-mail check and the insert in `/signUp`, and between the ownership read and the write in PUT `/places`.
- The `/test`, `/logout`, `/upload-by-link` and `/upload` handlers and `uploadToS3`. They are a database ping, cookie clearing with no table effect, and S3, network and filesystem I/O.
- `models/place.js`, `models/booking.js`, `models/user.js`, `index.js`, `routes/v1/index.js` and `config/db.js`. They are unused query wrappers, application wiring and the connection pool.
- Logging (`console.log`, `console.error`).
