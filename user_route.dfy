/** The `/api/user` router: token resolution, sign-up, login, profile, places
    and bookings, as handlers over an in-memory store. Each handler takes the
    request's cookie token and body fields as parameters and returns the
    status, JSON body and cookie it sends. */
module UserRoute {
  import opened Primitives
  import opened EmailFormat
  import opened Tables

  /** The cookie a successful login sets. `secure` and `sameSite` depend on
      the deployment environment and are not modelled. */
  datatype Cookie = Cookie(name: string, value: string, maxAgeMs: nat, httpOnly: bool)

  /** The JSON bodies the handlers send. */
  datatype Body =
    | ErrorBody(error: string)                // { error }
    | Failed(error: string)                   // { error, success: false }
    | ServerError(details: string)            // { error: "Server error", details, success: false }
    | EmptyObject                             // an Error object serialised by res.json: {}
    | SignedUp(name: string, email: string)   // { name, email }
    | LoggedIn                                // { success: true }
    | ProfileData(email: string)              // { success: true, data: { email } }
    | PlaceCreated(id: nat)                   // { message: "success", id }
    | PlaceRows(places: seq<Place>)           // the selected rows
    | PlaceRow(place: Place)                  // one row
    | UpdatedOk                               // "ok"
    | BookingRows(bookings: seq<Booking>)     // the selected rows
    | BookingCreated(bookingId: nat)          // { message: "Booking created successfully", bookingId }

  datatype Response = Response(status: nat, body: Body, cookie: Option<Cookie>)

  /** Why token resolution failed: no token in the cookies, or the library
      rejected it with the given message. */
  datatype ResolveError = TokenNotProvided | VerificationFailed(reason: string)

  /** How a handler ends: it sends a response, or its promise rejects before
      any response is sent. */
  datatype Completion = Sent(response: Response) | Rejected(error: ResolveError)

  const VerifyFailurePrefix := "JWT Verification Failed: "

  /** The message of the plain `Error` that token resolution rejects with. The
      two kinds stay apart, and a verification failure carries the library's
      own message after a fixed prefix. */
  function ErrorMessage(e: ResolveError): (m: string)
    ensures m == "Token not provided" <==> e.TokenNotProvided?
    ensures e.VerificationFailed? ==>
      |VerifyFailurePrefix| <= |m| && m[..|VerifyFailurePrefix|] == VerifyFailurePrefix &&
      m[|VerifyFailurePrefix|..] == e.reason
  {
    match e
    case TokenNotProvided => "Token not provided"
    case VerificationFailed(reason) => VerifyFailurePrefix + reason
  }

  function SessionCookie(token: string): Cookie
  {
    Cookie("token", token, CookieMaxAgeMs, true)
  }

  /** `getUserDataFromReq`: the claims of the request's cookie token. A falsy
      token fails without consulting the library; otherwise the library's
      verdict decides, and on success its claims come back unchanged. */
  function ResolveToken(crypto: Crypto, token: Option<string>): (r: Result<Claims, ResolveError>)
    ensures Missing(token) <==> r == Failure(TokenNotProvided)
    ensures r.Failure? <==> Missing(token) || crypto.verify(token.value).Failure?
    ensures r.Success? ==> crypto.verify(token.value) == Success(r.value)
    ensures r.Failure? && !Missing(token) ==>
      r.error == VerificationFailed(crypto.verify(token.value).error)
  {
    if Missing(token) then Failure(TokenNotProvided)
    else
      match crypto.verify(token.value)
      case Success(claims) => Success(claims)
      case Failure(message) => Failure(VerificationFailed(message))
  }

  /** The input checks of `/signUp`, in the order the handler runs them: all
      three fields present, then the e-mail shape, then the password length.
      `None` means the input passes. */
  function SignUpInputError(name: Option<string>, email: Option<string>, password: Option<string>): (err: Option<string>)
    ensures err.None? <==>
      !Missing(name) && !Missing(email) && !Missing(password) &&
      ShapeByCharacters(email.value) && |password.value| >= 8
    ensures Missing(name) || Missing(email) || Missing(password) ==>
      err == Some("All fields are required")
    ensures !Missing(name) && !Missing(email) && !Missing(password) && !ShapeByCharacters(email.value) ==>
      err == Some("Invalid email format")
    ensures !Missing(name) && !Missing(email) && !Missing(password) && ShapeByCharacters(email.value) &&
            |password.value| < 8 ==>
      err == Some("Password must be at least 8 characters long")
  {
    if Missing(name) || Missing(email) || Missing(password) then Some("All fields are required")
    else
      EmailShapeCharacterization(email.value);
      if !IsEmailShape(email.value) then Some("Invalid email format")
      else if |password.value| < 8 then Some("Password must be at least 8 characters long")
      else None
  }

  /** Some user row carries this e-mail: exactly when the query
      `SELECT email FROM users WHERE email = ?` returns a row. */
  predicate EmailTaken(users: seq<User>, email: string)
    ensures EmailTaken(users, email) <==> |Select(users, (u: User) => u.email == email)| > 0
  {
    var rows := Select(users, (u: User) => u.email == email);
    assert forall k :: 0 <= k < |users| && users[k].email == email ==> users[k] in rows;
    assert |rows| > 0 ==> rows[0] in users;
    exists k :: 0 <= k < |users| && users[k].email == email
  }

  /** The database behind the router: the `users`, `places` and `bookings`
      tables and their auto-increment counters. */
  class Store {
    var users: seq<User>
    var places: seq<Place>
    var bookings: seq<Booking>
    var nextUserId: nat
    var nextPlaceId: nat
    var nextBookingId: nat

    /** E-mails are unique among users, and every table's ids ascend below its
        counter. */
    ghost predicate Valid()
      reads this
    {
      UniqueEmails(users) &&
      IdsAscendingBelow(users, (u: User) => u.id, nextUserId) &&
      IdsAscendingBelow(places, (p: Place) => p.id, nextPlaceId) &&
      IdsAscendingBelow(bookings, (b: Booking) => b.id, nextBookingId)
    }

    /** Empty tables whose counters start at 1, as MySQL's AUTO_INCREMENT does. */
    constructor ()
      ensures Valid()
      ensures users == [] && places == [] && bookings == []
      ensures nextUserId == 1 && nextPlaceId == 1 && nextBookingId == 1
    {
      users, places, bookings := [], [], [];
      nextUserId, nextPlaceId, nextBookingId := 1, 1, 1;
    }

    /** POST /signUp. */
    method SignUp(crypto: Crypto, name: Option<string>, email: Option<string>, password: Option<string>)
      returns (resp: Response)
      requires Valid()
      modifies this
      ensures Valid()
      ensures places == old(places) && bookings == old(bookings)
      ensures nextPlaceId == old(nextPlaceId) && nextBookingId == old(nextBookingId)
      ensures resp.cookie == None
      ensures resp.status != 201 ==> users == old(users) && nextUserId == old(nextUserId)
      ensures SignUpInputError(name, email, password).Some? ==>
        resp == Response(400, ErrorBody(SignUpInputError(name, email, password).value), None)
      ensures SignUpInputError(name, email, password).None? && EmailTaken(old(users), email.value) ==>
        resp == Response(409, ErrorBody("Email already in use"), None)
      ensures SignUpInputError(name, email, password).None? && !EmailTaken(old(users), email.value) ==>
        resp == Response(201, SignedUp(name.value, email.value), None) &&
        users == old(users) + [User(old(nextUserId), name.value, email.value, crypto.hash(password.value))] &&
        nextUserId == old(nextUserId) + 1
    {
      var invalid := SignUpInputError(name, email, password);
      if invalid.Some? {
        return Response(400, ErrorBody(invalid.value), None);
      }
      var hashed := crypto.hash(password.value);
      var existing := Select(users, (u: User) => u.email == email.value);
      if |existing| > 0 {
        assert existing[0] in users;
        return Response(409, ErrorBody("Email already in use"), None);
      }
      var user := User(nextUserId, name.value, email.value, hashed);
      AppendFreshEmail(users, user);
      AppendNextId(users, (u: User) => u.id, nextUserId, user);
      users := users + [user];
      nextUserId := nextUserId + 1;
      resp := Response(201, SignedUp(name.value, email.value), None);
    }

    /** POST /login. Reads the users table only. */
    method Login(crypto: Crypto, email: Option<string>, password: Option<string>) returns (resp: Response)
      requires Valid()
      ensures resp.cookie.Some? ==> resp.status == 200
      ensures Missing(email) || Missing(password) ==>
        resp == Response(400, ErrorBody("Email and password are required"), None)
      ensures !Missing(email) && !Missing(password) && !EmailTaken(users, email.value) ==>
        resp == Response(404, ErrorBody("User not found"), None)
      ensures forall u :: u in users && !Missing(email) && !Missing(password) && u.email == email.value ==>
        if !crypto.compare(password.value, u.password) then
          resp == Response(401, ErrorBody("Invalid credentials"), None)
        else
          match crypto.sign(Claims(u.id, u.email, u.name), TokenLifetimeSeconds)
          case None => resp == Response(500, ErrorBody("Internal server error"), None)
          case Some(token) => resp == Response(200, LoggedIn, Some(SessionCookie(token)))
    {
      if Missing(email) || Missing(password) {
        return Response(400, ErrorBody("Email and password are required"), None);
      }
      var found := FirstWhere(users, (u: User) => u.email == email.value);
      if found.None? {
        return Response(404, ErrorBody("User not found"), None);
      }
      var user := users[found.value];
      forall u | u in users && u.email == email.value
        ensures u == user
      {
        var i :| 0 <= i < |users| && users[i] == u;
        assert i == found.value;
      }
      if !crypto.compare(password.value, user.password) {
        return Response(401, ErrorBody("Invalid credentials"), None);
      }
      match crypto.sign(Claims(user.id, user.email, user.name), TokenLifetimeSeconds)
      case None =>
        resp := Response(500, ErrorBody("Internal server error"), None);
      case Some(token) =>
        resp := Response(200, LoggedIn, Some(SessionCookie(token)));
    }

    /** GET /profile. Every rejection of token resolution is a plain `Error`,
        so this handler answers 500, never 403, when the token is missing or
        rejected. */
    method Profile(crypto: Crypto, token: Option<string>) returns (resp: Response)
      ensures resp.status != 403 && resp.cookie == None
      ensures ResolveToken(crypto, token).Failure? ==>
        resp == Response(500, ServerError(ErrorMessage(ResolveToken(crypto, token).error)), None)
      ensures ResolveToken(crypto, token).Success? ==>
        var email := ResolveToken(crypto, token).value.email;
        (EmailTaken(users, email) ==> resp == Response(200, ProfileData(email), None)) &&
        (!EmailTaken(users, email) ==> resp == Response(404, Failed("User not found"), None))
    {
      match ResolveToken(crypto, token)
      case Failure(e) =>
        resp := Response(500, ServerError(ErrorMessage(e)), None);
      case Success(claims) =>
        var rows := Select(users, (u: User) => u.email == claims.email);
        if |rows| == 0 {
          forall k | 0 <= k < |users| ensures users[k].email != claims.email {
            assert users[k] !in rows;
          }
          resp := Response(404, Failed("User not found"), None);
        } else {
          assert rows[0] in users;
          resp := Response(200, ProfileData(rows[0].email), None);
        }
    }

    /** POST /places. The owner is the token's e-mail; the body cannot name one. */
    method CreatePlace(crypto: Crypto, token: Option<string>, details: PlaceDetails) returns (resp: Response)
      requires Valid()
      modifies this
      ensures Valid()
      ensures users == old(users) && bookings == old(bookings)
      ensures nextUserId == old(nextUserId) && nextBookingId == old(nextBookingId)
      ensures resp.cookie == None
      ensures ResolveToken(crypto, token).Failure? ==>
        resp == Response(500, EmptyObject, None) &&
        places == old(places) && nextPlaceId == old(nextPlaceId)
      ensures ResolveToken(crypto, token).Success? ==>
        resp == Response(200, PlaceCreated(old(nextPlaceId)), None) &&
        places == old(places) + [Place(old(nextPlaceId), details, ResolveToken(crypto, token).value.email)] &&
        nextPlaceId == old(nextPlaceId) + 1
    {
      match ResolveToken(crypto, token)
      case Failure(_) =>
        resp := Response(500, EmptyObject, None);
      case Success(claims) =>
        var place := Place(nextPlaceId, details, claims.email);
        AppendNextId(places, (p: Place) => p.id, nextPlaceId, place);
        places := places + [place];
        nextPlaceId := nextPlaceId + 1;
        resp := Response(200, PlaceCreated(place.id), None);
    }

    /** GET /user-places: the places owned by the token's e-mail. */
    method UserPlaces(crypto: Crypto, token: Option<string>) returns (resp: Response)
      ensures resp.cookie == None
      ensures Missing(token) ==> resp == Response(401, ErrorBody("No token provided"), None)
      ensures !Missing(token) && crypto.verify(token.value).Failure? ==>
        resp == Response(500, ErrorBody("Failed to fetch user-specific places"), None)
      ensures !Missing(token) && crypto.verify(token.value).Success? ==>
        resp.status == 200 && resp.body.PlaceRows? &&
        (forall p :: p in resp.body.places <==> p in places && p.userEmail == crypto.verify(token.value).value.email) &&
        (forall p :: multiset(resp.body.places)[p] ==
          if p.userEmail == crypto.verify(token.value).value.email then multiset(places)[p] else 0)
    {
      if Missing(token) {
        return Response(401, ErrorBody("No token provided"), None);
      }
      match ResolveToken(crypto, token)
      case Failure(_) =>
        resp := Response(500, ErrorBody("Failed to fetch user-specific places"), None);
      case Success(claims) =>
        SelectCounts(places, (p: Place) => p.userEmail == claims.email);
        resp := Response(200, PlaceRows(Select(places, (p: Place) => p.userEmail == claims.email)), None);
    }

    /** GET /places/:title: the first place with that title. */
    method PlaceByTitle(title: string) returns (resp: Response)
      ensures resp.cookie == None
      ensures (forall k :: 0 <= k < |places| ==> places[k].details.title != title) <==> resp.status == 404
      ensures resp.status == 404 ==> resp.body == ErrorBody("Place not found")
      ensures resp.status != 404 ==>
        resp.status == 200 && resp.body.PlaceRow? &&
        exists k :: 0 <= k < |places| && places[k] == resp.body.place && places[k].details.title == title &&
          forall j :: 0 <= j < k ==> places[j].details.title != title
    {
      var found := FirstWhere(places, (p: Place) => p.details.title == title);
      if found.None? {
        resp := Response(404, ErrorBody("Place not found"), None);
      } else {
        resp := Response(200, PlaceRow(places[found.value]), None);
      }
    }

    /** GET /places: every place, or those with the query's title when one
        is given. */
    method ListPlaces(title: Option<string>) returns (resp: Response)
      ensures resp.status == 200 && resp.cookie == None && resp.body.PlaceRows?
      ensures Missing(title) ==> resp.body.places == places
      ensures !Missing(title) ==>
        (forall p :: p in resp.body.places <==> p in places && p.details.title == title.value) &&
        (forall p :: multiset(resp.body.places)[p] == if p.details.title == title.value then multiset(places)[p] else 0)
    {
      if !Missing(title) {
        SelectCounts(places, (p: Place) => p.details.title == title.value);
        resp := Response(200, PlaceRows(Select(places, (p: Place) => p.details.title == title.value)), None);
      } else {
        resp := Response(200, PlaceRows(places), None);
      }
    }

    /** PUT /places. The token is verified directly, not through
        `ResolveToken`, but to the same effect; every rejection gives 403.
        The WHERE clause of the update is bound to `place.userEmail`, a
        property the selected row does not have (its column is `user_email`),
        so the key is `None` (SQL NULL). */
    method UpdatePlace(crypto: Crypto, token: Option<string>, id: Option<nat>, details: PlaceDetails)
      returns (resp: Response)
      requires Valid()
      modifies this
      ensures Valid()
      ensures users == old(users) && bookings == old(bookings)
      ensures nextUserId == old(nextUserId) && nextPlaceId == old(nextPlaceId) && nextBookingId == old(nextBookingId)
      ensures resp.cookie == None
      ensures ResolveToken(crypto, token).Failure? ==>
        resp == Response(403, ErrorBody("Unauthorized"), None) && places == old(places)
      ensures ResolveToken(crypto, token).Success? &&
              (id.None? || forall k :: 0 <= k < |old(places)| ==> old(places)[k].id != id.value) ==>
        resp == Response(404, ErrorBody("Place not found"), None) && places == old(places)
      ensures forall k ::
        (0 <= k < |old(places)| && id == Some(old(places)[k].id) && ResolveToken(crypto, token).Success? &&
         old(places)[k].userEmail != crypto.verify(token.value).value.email) ==>
        resp == Response(403, ErrorBody("Not authorized to edit this place"), None) && places == old(places)
      ensures forall k ::
        (0 <= k < |old(places)| && id == Some(old(places)[k].id) && ResolveToken(crypto, token).Success? &&
         old(places)[k].userEmail == crypto.verify(token.value).value.email) ==>
        resp == Response(200, UpdatedOk, None) && places == UpdateWhereOwner(old(places), None, details)
      ensures |places| == |old(places)|
      ensures ResolveToken(crypto, token).Success? ==>
        forall k :: 0 <= k < |old(places)| && old(places)[k].userEmail != crypto.verify(token.value).value.email ==>
          places[k] == old(places)[k]
      // The update's key is NULL, so even the owner's own request changes no row.
      ensures places == old(places)
    {
      // jsonwebtoken rejects a falsy token before decoding it.
      if Missing(token) {
        return Response(403, ErrorBody("Unauthorized"), None);
      }
      match crypto.verify(token.value)
      case Failure(_) =>
        resp := Response(403, ErrorBody("Unauthorized"), None);
      case Success(claims) =>
        var found := FirstWhere(places, (p: Place) => id == Some(p.id));
        if found.None? {
          return Response(404, ErrorBody("Place not found"), None);
        }
        var place := places[found.value];
        // Ids are unique, so the id selects this row and no other.
        assert forall k :: 0 <= k < |places| && id == Some(places[k].id) ==> k == found.value;
        if claims.email != place.userEmail {
          return Response(403, ErrorBody("Not authorized to edit this place"), None);
        }
        NullKeyUpdatesNothing(places, details);
        places := UpdateWhereOwner(places, None, details);
        resp := Response(200, UpdatedOk, None);
    }

    /** GET /bookings: every booking, whoever asks. */
    method ListBookings() returns (resp: Response)
      ensures resp == Response(200, BookingRows(bookings), None)
    {
      resp := Response(200, BookingRows(bookings), None);
    }

    /** POST /bookings. Token resolution runs outside the handler's try block,
        so its failure rejects the handler before any response is sent. */
    method CreateBooking(crypto: Crypto, token: Option<string>, details: BookingDetails) returns (c: Completion)
      requires Valid()
      modifies this
      ensures Valid()
      ensures users == old(users) && places == old(places)
      ensures nextUserId == old(nextUserId) && nextPlaceId == old(nextPlaceId)
      ensures ResolveToken(crypto, token).Failure? ==>
        c == Rejected(ResolveToken(crypto, token).error) &&
        bookings == old(bookings) && nextBookingId == old(nextBookingId)
      ensures ResolveToken(crypto, token).Success? ==>
        c == Sent(Response(201, BookingCreated(old(nextBookingId)), None)) &&
        bookings == old(bookings) + [Booking(old(nextBookingId), details, ResolveToken(crypto, token).value.email)] &&
        nextBookingId == old(nextBookingId) + 1
    {
      match ResolveToken(crypto, token)
      case Failure(e) =>
        c := Rejected(e);
      case Success(claims) =>
        var booking := Booking(nextBookingId, details, claims.email);
        AppendNextId(bookings, (b: Booking) => b.id, nextBookingId, booking);
        bookings := bookings + [booking];
        nextBookingId := nextBookingId + 1;
        c := Sent(Response(201, BookingCreated(booking.id), None));
    }
  }
}
