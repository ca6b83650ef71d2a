/** The REST routes of the API gateway for rides: the `authenticate`
    middleware, which stores the verified user on the request, and the
    decisions each route handler takes before it calls the ride service
    (role, ownership, seat count), then the status it answers with and
    whether it publishes an event. */
module RestRoutes {
  import opened Wrappers
  import opened Schema
  import opened Service
  import opened Gateway

  /** A response the gateway sends without calling the ride service. */
  datatype Refusal = Refusal(status: int, message: string)

  /** What a handler does: answer at once, or call the ride service. */
  datatype Step = Refuse(refusal: Refusal) | Call(call: ServiceCall)

  const NoToken := Refusal(401, "Authentification requise")
  const BadToken := Refusal(401, "Token invalide")
  const AuthFailed := Refusal(500, "Erreur lors de l'authentification")
  const NotADriver := Refusal(403, "Seuls les conducteurs peuvent créer des trajets")
  const NotYourRideToUpdate := Refusal(403, "Vous ne pouvez modifier que vos propres trajets")
  const NotYourRideToDelete := Refusal(403, "Vous ne pouvez supprimer que vos propres trajets")
  const RideMissing := Refusal(404, "Trajet non trouvé")
  const BadSeatCount := Refusal(400, "Le nombre de places demandé est invalide ou manquant")

  /** The longest prefix of `s` without a space. */
  function BeforeSpace(s: string): (w: string)
    ensures w <= s && ' ' !in w
    ensures |w| < |s| ==> s[|w|] == ' '
  {
    if s == [] || s[0] == ' ' then [] else [s[0]] + BeforeSpace(s[1..])
  }

  /** `authorization?.split(' ')[1]`, with `None` for every falsy outcome: no
      header, no space in it, or an empty second piece. */
  function BearerToken(authorization: Option<string>): (token: Option<string>)
    ensures token.Some? ==> token.value != [] && ' ' !in token.value
    ensures authorization.None? ==> token.None?
    ensures authorization.Some? && ' ' !in authorization.value ==> token.None?
  {
    if authorization.None? then None
    else
      var h := authorization.value;
      var scheme := BeforeSpace(h);
      if |scheme| == |h| then None
      else
        var second := BeforeSpace(h[|scheme| + 1..]);
        if second == [] then None else Some(second)
  }

  lemma {:induction false} BeforeSpaceOfWord(a: string, rest: string)
    requires ' ' !in a
    ensures BeforeSpace(a + rest) == a + BeforeSpace(rest)
  {
    if a == [] {
      assert a + rest == rest;
    } else {
      assert a[0] in a;
      assert (a + rest)[0] == a[0] != ' ';
      assert (a + rest)[1..] == a[1..] + rest;
      BeforeSpaceOfWord(a[1..], rest);
      assert a == [a[0]] + a[1..];
    }
  }

  /** `Authorization: <scheme> <token><rest>`, where `rest` is empty or
      starts a third piece, gives back the token: the second piece. */
  lemma BearerTokenOfHeader(scheme: string, token: string, rest: string)
    requires ' ' !in scheme && ' ' !in token && token != []
    requires rest == [] || rest[0] == ' '
    ensures BearerToken(Some(scheme + " " + token + rest)) == Some(token)
  {
    var h := scheme + " " + token + rest;
    assert h == scheme + (" " + token + rest);
    BeforeSpaceOfWord(scheme, " " + token + rest);
    assert BeforeSpace(" " + token + rest) == [];
    assert BeforeSpace(h) == scheme;
    assert h[|scheme| + 1..] == token + rest;
    BeforeSpaceOfWord(token, rest);
    assert BeforeSpace(rest) == [];
    assert BeforeSpace(h[|scheme| + 1..]) == token;
  }

  /** `Authorization: <scheme> <rest>` whose second piece is empty (nothing
      after the space, or a second space) gives no token. */
  lemma EmptySecondPieceGivesNoToken(scheme: string, rest: string)
    requires ' ' !in scheme
    requires rest == [] || rest[0] == ' '
    ensures BearerToken(Some(scheme + " " + rest)).None?
  {
    var h := scheme + " " + rest;
    assert h == scheme + (" " + rest);
    BeforeSpaceOfWord(scheme, " " + rest);
    assert BeforeSpace(" " + rest) == [];
    assert BeforeSpace(h) == scheme;
    assert h[|scheme| + 1..] == rest;
  }

  /** An incoming request: its `Authorization` header and `req.user`, which
      `authenticate` sets. */
  class Request {
    const authorization: Option<string>
    var user: Option<User>

    constructor(authorization: Option<string>)
      ensures this.authorization == authorization && user == None
    {
      this.authorization := authorization;
      user := None;
    }

    /** The `authenticate` middleware. `verify` is the auth service's answer
        for each token. On `None` it has stored the verified user and the
        handler runs next; otherwise the request ends with the refusal and
        the handler never runs. */
    method Authenticate(verify: string -> Verification) returns (refusal: Option<Refusal>)
      modifies this
      ensures refusal.None? <==> BearerToken(authorization).Some? && verify(BearerToken(authorization).value).Verified?
      ensures refusal.None? ==> user == Some(verify(BearerToken(authorization).value).user)
      ensures refusal.Some? ==> user == old(user)
      ensures BearerToken(authorization).None? ==> refusal == Some(NoToken)
      ensures BearerToken(authorization).Some? ==>
        match verify(BearerToken(authorization).value)
        case Verified(_) => true
        case NotVerified => refusal == Some(BadToken)
        case VerifyThrew(_) => refusal == Some(AuthFailed)
    {
      var token := BearerToken(authorization);
      if token.None? {
        return Some(NoToken);
      }
      var result := verify(token.value);
      match result {
        case VerifyThrew(_) =>
          refusal := Some(AuthFailed);
        case NotVerified =>
          refusal := Some(BadToken);
        case Verified(u) =>
          user := Some(u);
          refusal := None;
      }
    }

    /** An authenticated route: `authenticate`, then the handler on the
        verified user. */
    method Handle(verify: string -> Verification, handler: User -> Step) returns (step: Step)
      modifies this
      ensures step.Call? ==> user.Some? && step == handler(user.value)
      ensures BearerToken(authorization).None? ==> step == Refuse(NoToken)
      ensures BearerToken(authorization).Some? ==>
        match verify(BearerToken(authorization).value)
        case Verified(u) => step == handler(u) && user == Some(u)
        case NotVerified => step == Refuse(BadToken)
        case VerifyThrew(_) => step == Refuse(AuthFailed)
    {
      var refusal := Authenticate(verify);
      if refusal.Some? {
        return Refuse(refusal.value);
      }
      step := handler(user.value);
    }
  }

  /** POST /trajets. */
  function CreateRoute(user: User, body: TrajetFields): (s: Step)
    ensures s.Call? <==> user.role == DriverRole
    ensures s.Refuse? ==> s.refusal == NotADriver
    ensures s.Call? ==> s.call == CreateCall(AsDriver(body, user))
  {
    if user.role != DriverRole then Refuse(NotADriver)
    else Call(CreateCall(AsDriver(body, user)))
  }

  /** The body of PUT /trajets/:id: the six fields of a patch and, when the
      caller sends one, an `id` key. */
  datatype UpdateBody = UpdateBody(id: Option<string>, patch: Patch)

  /** The ride the service updates for a call on `pathId` with `body`: the
      gateway's client sends `{ id, ...body }`, so a body `id` replaces the
      path id, and the service's server reads the `id` of that message. */
  function ForwardedTarget(pathId: string, body: UpdateBody): (target: string)
    ensures body.id.None? ==> target == pathId
    ensures body.id.Some? ==> target == body.id.value
  {
    if body.id.Some? then body.id.value else pathId
  }

  /** PUT /trajets/:id as written: the lookup and the ownership check are on
      the path id, and the body is passed on whole. */
  function UpdateRouteAsWritten(user: User, id: string, body: UpdateBody, lookup: TrajetResponse): (s: Step)
    requires lookup.success ==> lookup.trajet.Some?
    ensures s.Call? <==> lookup.success && lookup.trajet.value.conducteurId == user.id
    ensures !lookup.success ==> s == Refuse(Refusal(404, lookup.message))
    ensures lookup.success && lookup.trajet.value.conducteurId != user.id ==> s == Refuse(NotYourRideToUpdate)
    ensures s.Call? ==> s.call == UpdateCall(ForwardedTarget(id, body), body.patch)
  {
    if !lookup.success then Refuse(Refusal(404, lookup.message))
    else if lookup.trajet.value.conducteurId != user.id then Refuse(NotYourRideToUpdate)
    else Call(UpdateCall(ForwardedTarget(id, body), body.patch))
  }

  /** The driver of the ride at `id` who sends a body naming another ride
      `other` gets that other ride updated, whoever drives it: its ownership
      is never checked. */
  lemma BodyIdRedirectsUpdate(user: User, id: string, other: string, patch: Patch, lookup: TrajetResponse)
    requires lookup.success && lookup.trajet.Some? && lookup.trajet.value.conducteurId == user.id
    requires other != id
    ensures UpdateRouteAsWritten(user, id, UpdateBody(Some(other), patch), lookup) == Call(UpdateCall(other, patch))
    ensures UpdateRouteAsWritten(user, id, UpdateBody(Some(other), patch), lookup).call.id != id
  {
  }

  /** PUT /trajets/:id with the body's `id` key dropped, given the answer of
      `getTrajetById(id)`; a missing ride answers 404 with that lookup's own
      message. The ride updated is always the ride whose driver was checked. */
  function UpdateRoute(user: User, id: string, body: UpdateBody, lookup: TrajetResponse): (s: Step)
    requires lookup.success ==> lookup.trajet.Some?
    ensures s.Call? <==> lookup.success && lookup.trajet.value.conducteurId == user.id
    ensures !lookup.success ==> s == Refuse(Refusal(404, lookup.message))
    ensures lookup.success && lookup.trajet.value.conducteurId != user.id ==> s == Refuse(NotYourRideToUpdate)
    ensures s.Call? ==> s.call == UpdateCall(id, body.patch)
    ensures s.Call? ==> s.call.id == id && lookup.trajet.value.conducteurId == user.id
  {
    if !lookup.success then Refuse(Refusal(404, lookup.message))
    else if lookup.trajet.value.conducteurId != user.id then Refuse(NotYourRideToUpdate)
    else Call(UpdateCall(id, body.patch))
  }

  /** Whatever `id` the body names, the route does the same thing, and where
      the code as written updates a ride it has checked, so does the route. */
  lemma UpdateIgnoresBodyId(user: User, id: string, named: Option<string>, patch: Patch, lookup: TrajetResponse)
    requires lookup.success ==> lookup.trajet.Some?
    ensures UpdateRoute(user, id, UpdateBody(named, patch), lookup) == UpdateRoute(user, id, UpdateBody(None, patch), lookup)
    ensures UpdateRoute(user, id, UpdateBody(None, patch), lookup) == UpdateRouteAsWritten(user, id, UpdateBody(None, patch), lookup)
  {
  }

  /** DELETE /trajets/:id, given the answer of `getTrajetById(id)`. */
  function DeleteRoute(user: User, id: string, lookup: TrajetResponse): (s: Step)
    requires lookup.success ==> lookup.trajet.Some?
    ensures s.Call? <==> lookup.success && lookup.trajet.value.conducteurId == user.id
    ensures !lookup.success ==> s == Refuse(RideMissing)
    ensures lookup.success && lookup.trajet.value.conducteurId != user.id ==> s == Refuse(NotYourRideToDelete)
    ensures s.Call? ==> s.call == DeleteCall(id)
  {
    if !lookup.success then Refuse(RideMissing)
    else if lookup.trajet.value.conducteurId != user.id then Refuse(NotYourRideToDelete)
    else Call(DeleteCall(id))
  }

  /** POST /trajets/:id/reservations. `places` is `Number(body.places)`, with
      `None` for NaN. The check runs before the value is floored. */
  function BookRoute(user: User, trajetId: string, places: Option<real>): (s: Step)
    ensures s.Call? <==> places.Some? && places.value > 0.0
    ensures s.Refuse? ==> s.refusal == BadSeatCount
    ensures s.Call? ==> s.call == BookCall(trajetId, AsPassenger(user, places.value.Floor))
  {
    if places.None? || places.value <= 0.0 then Refuse(BadSeatCount)
    else
      var seats := places.value.Floor;
      Call(BookCall(trajetId, AsPassenger(user, seats)))
  }

  /** DELETE /trajets/:trajetId/reservations/:reservationId: the passenger is
      the caller, never a value from the request. */
  function CancelRoute(user: User, trajetId: string, reservationId: string): (s: Step)
    ensures s.Call? && s.call.CancelCall?
    ensures s.call.trajetId == trajetId && s.call.reservationId == reservationId && s.call.passagerId == user.id
  {
    Call(CancelCall(trajetId, reservationId, user.id))
  }

  /** GET /mes-trajets (`asPassenger` false) and GET /mes-reservations. */
  function OwnRidesRoute(user: User, asPassenger: bool): (s: Step)
    ensures s.Call? && s.call.ByUserCall?
    ensures s.call.userId == user.id && s.call.asPassenger == asPassenger
  {
    Call(ByUserCall(user.id, asPassenger))
  }

  /** What a handler does once the service has replied: the status it
      answers with, and whether it publishes an event first. */
  datatype Reply = Reply(status: int, publish: bool)

  /** Success answers 201 for a create or a booking and 200 otherwise, and
      only the five mutating routes publish, only on success; a failure
      answers 400 and publishes nothing. */
  function AfterService(call: ServiceCall, success: bool): (r: Reply)
    ensures r.publish <==> success && !call.ByUserCall?
    ensures !success ==> r.status == 400
    ensures success ==> r.status == (if call.CreateCall? || call.BookCall? then 201 else 200)
  {
    if !success then Reply(400, false)
    else match call
      case CreateCall(_) => Reply(201, true)
      case BookCall(_, _) => Reply(201, true)
      case ByUserCall(_, _) => Reply(200, false)
      case _ => Reply(200, true)
  }

  /** A seat count in (0, 1) passes the check, is floored to 0, and then can
      never be saved by the ride service. */
  lemma FractionBelowOneBooksNothing(user: User, trajetId: string, x: real, t: Trajet, reservationId: string)
    requires 0.0 < x < 1.0
    ensures BookRoute(user, trajetId, Some(x)).Call?
    ensures BookRoute(user, trajetId, Some(x)).call.booking.places == 0
    ensures !BookingSaveable(t, BookRoute(user, trajetId, Some(x)).call.booking, reservationId)
  {
    assert x.Floor == 0 by {
      assert 0.0 <= x < 1.0;
    }
  }

  /** Every seat count the route forwards is an integer of at least 0, and
      it is at least 1 exactly when the request asked for 1 or more. */
  lemma ForwardedSeats(user: User, trajetId: string, x: real)
    requires x > 0.0
    ensures BookRoute(user, trajetId, Some(x)).call.booking.places >= 0
    ensures BookRoute(user, trajetId, Some(x)).call.booking.places >= 1 <==> x >= 1.0
  {
    var f := x.Floor;
    assert f as real <= x < f as real + 1.0;
  }
}
