/** What the API gateway's REST routes and GraphQL resolvers have in common:
    the verified user, the three outcomes of asking the auth service to verify
    a token, and the ride-service call a request turns into once every check
    of the gateway has passed. */
module Gateway {
  import opened Wrappers
  import opened Schema
  import opened Service

  /** The user the auth service returns for a valid token. */
  datatype User = User(id: int, username: string, role: string)

  /** `verifyToken({ token })`: it answers `success: true` with the user,
      answers `success: false`, or throws (the error's message is kept). */
  datatype Verification = Verified(user: User) | NotVerified | VerifyThrew(message: string)

  /** The role allowed to create rides. */
  const DriverRole := "conducteur"

  /** A call into the ride service, with the arguments the gateway passes. */
  datatype ServiceCall =
    | CreateCall(data: TrajetFields)
    | UpdateCall(id: string, patch: Patch)
    | DeleteCall(id: string)
    | BookCall(trajetId: string, booking: Booking)
    | CancelCall(trajetId: string, reservationId: string, passagerId: int)
    | ByUserCall(userId: int, asPassenger: bool)

  /** `{ ...body, conducteurId: user.id, conducteurNom: user.username }`:
      the driver of a new ride is always the caller, whatever the body says. */
  function AsDriver(body: TrajetFields, user: User): (data: TrajetFields)
    ensures data.conducteurId == Some(user.id) && data.conducteurNom == user.username
    ensures data.(conducteurId := body.conducteurId, conducteurNom := body.conducteurNom) == body
  {
    body.(conducteurId := Some(user.id), conducteurNom := user.username)
  }

  /** The booking a verified user makes: the passenger is always the caller. */
  function AsPassenger(user: User, places: int): (b: Booking)
    ensures b.passagerId == user.id && b.passagerNom == user.username && b.places == places
  {
    Booking(user.id, user.username, places)
  }
}
