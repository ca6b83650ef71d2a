/** The GraphQL resolvers of the API gateway for rides. `checkAuth` throws on
    a missing token or a failed verification; every resolver catches what it
    throws and answers `success: false` with the error's message, so no
    resolver ever throws. Each resolver either answers at once or calls the
    ride service. */
module Resolvers {
  import opened Wrappers
  import opened Schema
  import opened Service
  import opened Gateway
  import RestRoutes

  /** The outcome of `checkAuth`: the verified user, or the message of the
      error it throws. */
  datatype AuthResult = Authed(user: User) | AuthError(message: string)

  /** What a resolver does: answer `success: false` with a message, or call
      the ride service and return its answer. */
  datatype Answer = Fail(message: string) | Forward(call: ServiceCall)

  const NotAuthenticated := "Non authentifié. Veuillez vous connecter."
  const AuthErrorPrefix := "Erreur d'authentification: "
  const TokenRejected := "Token non valide. Veuillez vous reconnecter."
  const NotADriver := "Seuls les conducteurs peuvent créer des trajets"
  const NotYourRideToUpdate := "Vous ne pouvez modifier que vos propres trajets"
  const NotYourRideToDelete := "Vous ne pouvez supprimer que vos propres trajets"

  /** A token in the GraphQL context counts when it is there and not empty. */
  predicate HasToken(token: Option<string>)
  {
    token.Some? && token.value != ""
  }

  /** `checkAuth(context)`. The missing-token error is thrown before the
      `try`, so it keeps its own message; the rejection thrown inside the
      `try` is caught and rethrown with the prefix, like any error of
      `verifyToken` itself. */
  function CheckAuth(token: Option<string>, verify: string -> Verification): (r: AuthResult)
    ensures r.Authed? <==> HasToken(token) && verify(token.value).Verified?
    ensures r.Authed? ==> r.user == verify(token.value).user
    ensures !HasToken(token) ==> r == AuthError(NotAuthenticated)
    ensures HasToken(token) && verify(token.value).NotVerified? ==> r == AuthError(AuthErrorPrefix + TokenRejected)
    ensures HasToken(token) && verify(token.value).VerifyThrew? ==>
      r == AuthError(AuthErrorPrefix + verify(token.value).message)
  {
    if !HasToken(token) then AuthError(NotAuthenticated)
    else
      match verify(token.value)
      case Verified(u) => Authed(u)
      case NotVerified => AuthError(AuthErrorPrefix + TokenRejected)
      case VerifyThrew(m) => AuthError(AuthErrorPrefix + m)
  }

  /** Query `mesTrajets` (`asPassenger` false) and `mesReservations`. */
  function OwnRides(token: Option<string>, verify: string -> Verification, asPassenger: bool): (a: Answer)
    ensures a.Forward? <==> CheckAuth(token, verify).Authed?
    ensures a.Fail? ==> a.message == CheckAuth(token, verify).message
    ensures a.Forward? ==> a.call == ByUserCall(CheckAuth(token, verify).user.id, asPassenger)
  {
    match CheckAuth(token, verify)
    case AuthError(m) => Fail(m)
    case Authed(u) => Forward(ByUserCall(u.id, asPassenger))
  }

  /** Mutation `createTrajet`: drivers only, and the driver is the caller. */
  function CreateTrajet(token: Option<string>, verify: string -> Verification, input: TrajetFields): (a: Answer)
    ensures a.Forward? <==> CheckAuth(token, verify).Authed? && CheckAuth(token, verify).user.role == DriverRole
    ensures CheckAuth(token, verify).AuthError? ==> a == Fail(CheckAuth(token, verify).message)
    ensures CheckAuth(token, verify).Authed? && CheckAuth(token, verify).user.role != DriverRole ==> a == Fail(NotADriver)
    ensures a.Forward? ==> a.call == CreateCall(AsDriver(input, CheckAuth(token, verify).user))
  {
    match CheckAuth(token, verify)
    case AuthError(m) => Fail(m)
    case Authed(u) =>
      if u.role != DriverRole then Fail(NotADriver)
      else Forward(CreateCall(AsDriver(input, u)))
  }

  /** Mutation `updateTrajet`, given the answer of `getTrajetById(id)`; a
      missing ride is answered with that lookup's own envelope. */
  function UpdateTrajet(token: Option<string>, verify: string -> Verification, id: string, input: Patch,
                        lookup: TrajetResponse): (a: Answer)
    requires lookup.success ==> lookup.trajet.Some?
    ensures a.Forward? <==>
      CheckAuth(token, verify).Authed? && lookup.success && lookup.trajet.value.conducteurId == CheckAuth(token, verify).user.id
    ensures CheckAuth(token, verify).AuthError? ==> a == Fail(CheckAuth(token, verify).message)
    ensures CheckAuth(token, verify).Authed? && !lookup.success ==> a == Fail(lookup.message)
    ensures CheckAuth(token, verify).Authed? && lookup.success && lookup.trajet.value.conducteurId != CheckAuth(token, verify).user.id
      ==> a == Fail(NotYourRideToUpdate)
    ensures a.Forward? ==> a.call == UpdateCall(id, input)
  {
    match CheckAuth(token, verify)
    case AuthError(m) => Fail(m)
    case Authed(u) =>
      if !lookup.success then Fail(lookup.message)
      else if lookup.trajet.value.conducteurId != u.id then Fail(NotYourRideToUpdate)
      else Forward(UpdateCall(id, input))
  }

  /** Mutation `deleteTrajet`, given the answer of `getTrajetById(id)`. */
  function DeleteTrajet(token: Option<string>, verify: string -> Verification, id: string,
                        lookup: TrajetResponse): (a: Answer)
    requires lookup.success ==> lookup.trajet.Some?
    ensures a.Forward? <==>
      CheckAuth(token, verify).Authed? && lookup.success && lookup.trajet.value.conducteurId == CheckAuth(token, verify).user.id
    ensures CheckAuth(token, verify).AuthError? ==> a == Fail(CheckAuth(token, verify).message)
    ensures CheckAuth(token, verify).Authed? && !lookup.success ==> a == Fail(TrajetNotFound)
    ensures CheckAuth(token, verify).Authed? && lookup.success && lookup.trajet.value.conducteurId != CheckAuth(token, verify).user.id
      ==> a == Fail(NotYourRideToDelete)
    ensures a.Forward? ==> a.call == DeleteCall(id)
  {
    match CheckAuth(token, verify)
    case AuthError(m) => Fail(m)
    case Authed(u) =>
      if !lookup.success then Fail(TrajetNotFound)
      else if lookup.trajet.value.conducteurId != u.id then Fail(NotYourRideToDelete)
      else Forward(DeleteCall(id))
  }

  /** Mutation `bookTrajet`: `input.places` goes to the service as it came,
      with no check; the passenger is the caller. */
  function BookTrajet(token: Option<string>, verify: string -> Verification, trajetId: string, places: int): (a: Answer)
    ensures a.Forward? <==> CheckAuth(token, verify).Authed?
    ensures a.Fail? ==> a.message == CheckAuth(token, verify).message
    ensures a.Forward? ==> a.call == BookCall(trajetId, AsPassenger(CheckAuth(token, verify).user, places))
  {
    match CheckAuth(token, verify)
    case AuthError(m) => Fail(m)
    case Authed(u) => Forward(BookCall(trajetId, AsPassenger(u, places)))
  }

  /** Mutation `cancelBooking`: the passenger is the caller. */
  function CancelBooking(token: Option<string>, verify: string -> Verification, trajetId: string,
                         reservationId: string): (a: Answer)
    ensures a.Forward? <==> CheckAuth(token, verify).Authed?
    ensures a.Fail? ==> a.message == CheckAuth(token, verify).message
    ensures a.Forward? ==> a.call == CancelCall(trajetId, reservationId, CheckAuth(token, verify).user.id)
  {
    match CheckAuth(token, verify)
    case AuthError(m) => Fail(m)
    case Authed(u) => Forward(CancelCall(trajetId, reservationId, u.id))
  }

  /** The resolver forwards a seat count below 1, which the REST route
      refuses; the ride service's validators are then what refuses it. */
  lemma SeatCountReachesService(token: Option<string>, verify: string -> Verification, trajetId: string,
                                places: int, t: Trajet, reservationId: string)
    requires HasToken(token) && verify(token.value).Verified?
    requires places < 1
    ensures BookTrajet(token, verify, trajetId, places).Forward?
    ensures BookTrajet(token, verify, trajetId, places).call.booking.places == places
    ensures RestRoutes.BookRoute(verify(token.value).user, trajetId, Some(places as real)).Refuse?
    ensures !BookingSaveable(t, BookTrajet(token, verify, trajetId, places).call.booking, reservationId)
  {
  }
}
