/** Request sequences over one store, each a client of the handlers' contracts:
    what two requests in a row do, derived from the contracts alone. */
module RouteScenarios {
  import opened Primitives
  import opened Tables
  import opened UserRoute

  /** Sign-up succeeds at most once per e-mail: the same valid request sent
      twice is refused the second time with 409 and adds no second row. */
  method SignUpTwice(store: Store, crypto: Crypto, name: string, email: string, password: string)
    returns (first: Response, second: Response)
    requires store.Valid()
    requires SignUpInputError(Some(name), Some(email), Some(password)).None?
    modifies store
    ensures store.Valid()
    ensures first.status == 201 <==> !EmailTaken(old(store.users), email)
    ensures second == Response(409, ErrorBody("Email already in use"), None)
    ensures EmailTaken(store.users, email)
    ensures |store.users| <= |old(store.users)| + 1
  {
    first := store.SignUp(crypto, Some(name), Some(email), Some(password));
    assert EmailTaken(store.users, email) by {
      if first.status == 201 {
        assert store.users[|store.users| - 1].email == email;
      }
    }
    second := store.SignUp(crypto, Some(name), Some(email), Some(password));
  }

  /** A new user logs in with the password they signed up with (given that
      bcrypt accepts a password against its own digest): the session token
      carries exactly the new row's id, e-mail and name. */
  method SignUpThenLogIn(store: Store, crypto: Crypto, name: string, email: string, password: string)
    returns (signedUp: Response, loggedIn: Response)
    requires store.Valid()
    requires SignUpInputError(Some(name), Some(email), Some(password)).None?
    requires !EmailTaken(store.users, email)
    requires crypto.compare(password, crypto.hash(password))
    requires crypto.sign(Claims(store.nextUserId, email, name), TokenLifetimeSeconds).Some?
    modifies store
    ensures signedUp == Response(201, SignedUp(name, email), None)
    ensures loggedIn == Response(200, LoggedIn, Some(SessionCookie(
      crypto.sign(Claims(old(store.nextUserId), email, name), TokenLifetimeSeconds).value)))
  {
    signedUp := store.SignUp(crypto, Some(name), Some(email), Some(password));
    assert store.users[|store.users| - 1] in store.users;
    loggedIn := store.Login(crypto, Some(email), Some(password));
  }

  /** One user's token cannot edit another user's place: after A creates a
      place, B's update of that place's id is refused with 403 and the places
      table is exactly as A's request left it. */
  method ForeignUpdateRefused(store: Store, crypto: Crypto, tokenA: string, tokenB: string,
                              details: PlaceDetails, edit: PlaceDetails)
    returns (created: Response, attempt: Response)
    requires store.Valid()
    requires tokenA != "" && tokenB != ""
    requires crypto.verify(tokenA).Success? && crypto.verify(tokenB).Success?
    requires crypto.verify(tokenA).value.email != crypto.verify(tokenB).value.email
    modifies store
    ensures created == Response(200, PlaceCreated(old(store.nextPlaceId)), None)
    ensures attempt == Response(403, ErrorBody("Not authorized to edit this place"), None)
    ensures store.places ==
      old(store.places) + [Place(old(store.nextPlaceId), details, crypto.verify(tokenA).value.email)]
  {
    created := store.CreatePlace(crypto, Some(tokenA), details);
    var id := created.body.id;
    assert store.places[|store.places| - 1].id == id;
    attempt := store.UpdatePlace(crypto, Some(tokenB), Some(id), edit);
  }
}
