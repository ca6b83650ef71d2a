# Ride inventory and booking — a Dafny model

This project models the core of a car-sharing application: the ride service
that stores rides ("trajets") and the seat reservations ("réservations")
embedded in them, the Mongoose schema that every save validates, the API
gateway's REST routes and GraphQL resolvers in front of the service, and the
two pieces of client code that decide what reaches the gateway (the ride form
validator and the client's booking and search helpers).

The ride service is a class, `Service.TrajetService`, whose field `trajets`
maps a document id to its ride document. Each operation is a method that
reads one ride, checks it, changes it and saves it. `Save` runs the schema
validators (`Schema.ValidTrajet`) and writes nothing when they fail. The class
invariant `Valid()` says three things of every stored ride: it is keyed by its
own id, it passes the validators, and its ledger holds. The ledger is
`placesReservees` equal to the sum of its reservations' `places`, at most one
reservation per passenger, and none by the driver. Every method keeps it.

Files, one module each:

- `wrappers.dfy`: `Option`.
- `text.dfy`: decimal rendering of integers, ASCII lower-casing, substring
  search.
- `schema.dfy`: the ride and reservation documents, `new Trajet(...)` with its
  defaults, the validators.
- `seats.dfy`: the seat ledger, the reservation lookups, and the lemmas that
  booking and cancelling keep the ledger.
- `views.dfy`: `formatTrajet`.
- `query.dfy`: the listing filter. It holds the query as written and the
  corrected query (see Findings).
- `service.dfy`: the ride service.
- `gateway.dfy`: what the REST routes and GraphQL resolvers share.
- `rest_routes.dfy`, `resolvers.dfy`: the two gateways.
- `trajet_form.dfy`, `client_service.dfy`: the client.
- `scenario.dfy`: one ride's life, driven only by the service's contracts.

Modelling choices:

- Times are integers, in milliseconds since the epoch. A calendar day is a
  UTC day of 86 400 000 ms.
- Prices and the JavaScript numbers of the client are `real`.
- `undefined` is `None`. For a number, `None` also stands for NaN.
- The price estimate is an input (`None`: the estimate failed or threw).
- The new reservation's uuid, the new ride's id and the current time are
  inputs.
- The auth service's answer is a function from token to `Verified(user)`,
  `NotVerified` or `VerifyThrew(message)`.
- The `getTrajetById` lookup the gateway makes before an update or a delete
  is an input of the route.

The model follows the code in these places:

- The service keeps a supplied price of 0.
- The role check on creation is made by the gateway, not by the service.
- The service itself does not check that a seat count is a positive integer.
- A booking for exactly the remaining seats passes the service's own check.
  It then fails at save, because `placesDisponibles` has `min: 1`, and is
  reported as the generic booking error.
- The date filter's lower bound is replaced by the current time (see
  Findings). The model records this and uses the corrected filter.
- A PUT /trajets/:id body with an `id` key updates the ride it names, not
  the ride whose driver was checked (see Findings). The model records this,
  and its `RestRoutes.UpdateRoute` drops the body's `id`.

## Model

| member | source | states |
|---|---|---|
| Text.IntToString | services/service-trajet/src/services/trajetService.js:294 | the free-seat count quoted in a refusal is written in decimal, with a sign for negatives, and its digits read back as that number |
| Schema.Build | services/service-trajet/src/services/trajetService.js:40-49 | a new ride document takes the given fields, starts with 0 reserved seats and no reservations, and is dated at creation |
| Schema.CreatableIsValid | services/service-trajet/src/database/mongodb.js:14-26 | a freshly built ride passes the validators exactly when both place names are non-empty and at least one seat is offered |
| Seats.FindByPassenger | services/service-trajet/src/services/trajetService.js:311-313 | finds the first reservation of the passenger in list order, and reports none exactly when no reservation is theirs |
| Seats.IndexOfTarget | services/service-trajet/src/services/trajetService.js:384-386 | the index of the first reservation with both this id and this passenger, or -1 exactly when there is none |
| Seats.RemoveAt | services/service-trajet/src/services/trajetService.js:398 | `splice(k, 1)`: one element fewer, the elements before `k` kept in place, those after it shifted down by one |
| Seats.SumAppend | services/service-trajet/src/services/trajetService.js:340-341 | appending a reservation adds its seats to the sum of booked seats |
| Seats.SumRemoveAt | services/service-trajet/src/services/trajetService.js:398-399 | removing a reservation takes its seats off the sum of booked seats |
| Seats.BookingKeepsLedger | services/service-trajet/src/services/trajetService.js:340-342 | push plus `+=`/`-=` keeps reserved seats equal to the sum of reservations, keeps one reservation per passenger, and leaves free plus reserved unchanged |
| Seats.CancelKeepsLedger | services/service-trajet/src/services/trajetService.js:398-400 | splice plus `-=`/`+=` keeps the ledger and gives exactly the removed seats back |
| Seats.RemovedTargetIsGone | services/service-trajet/src/services/trajetService.js:384-392 | after the removal, neither the reservation id nor the passenger is found again, so a second cancel finds nothing |
| Views.FormatTrajet | services/service-trajet/src/services/trajetService.js:421-442 | one view per reservation, in order, each the reservation's projection |
| Views.FormatRoundTrip | services/service-trajet/src/services/trajetService.js:421-442 | the projection loses nothing: the document can be rebuilt from its view |
| Views.FormatInjective | services/service-trajet/src/services/trajetService.js:421-442 | two different documents never have the same view |
| Query.DayWindow | services/service-trajet/src/services/trajetService.js:84-90 | a time lies between the start and the end of a day exactly when it falls on that day |
| Query.BuildQueryAsWritten | services/service-trajet/src/services/trajetService.js:74-102 | the query as written matches a ride exactly when it is departing from now on, departs no later than the end of the filter's day, and meets the other filters |
| Query.EarlierDayLeaksThroughDateFilter | services/service-trajet/src/services/trajetService.js:102 | a ride of an earlier day passes the as-written query for a later day |
| Query.BuildQuery | services/service-trajet/src/services/trajetService.js:74-102 | the query matches a ride exactly when the filters admit it: future, on the filter's day, matching place texts, enough seats, price at most the cap |
| Query.AdmitsWithinAsWritten | services/service-trajet/src/services/trajetService.js:84-102 | every ride the corrected filter admits is also listed by the code as written |
| Query.ZeroBoundsAreNoConstraint | services/service-trajet/src/services/trajetService.js:92-99 | a seat minimum or price cap of 0 constrains nothing |
| Query.NoFiltersListsFuture | services/service-trajet/src/services/trajetService.js:101-102 | with no filters, exactly the rides departing from now on are listed |
| Service.DriverName | services/service-trajet/src/services/trajetService.js:44 | the driver's name as given, or "Conducteur <id>" when none is given |
| Service.InsertByDeparture | services/service-trajet/src/services/trajetService.js:105 | inserting into a list sorted by departure keeps it sorted and adds exactly that ride |
| Service.PatchedStillStored | services/service-trajet/src/services/trajetService.js:213-220 | a patched ride passes the validators exactly when the patch sets no empty place name and no seat count below 1, and its ledger is untouched |
| Service.BookedStillStored | services/service-trajet/src/services/trajetService.js:330-344 | a booked ride passes the validators exactly when the booking takes at least 1 seat, leaves at least 1 free, and has a passenger name and an id |
| Service.CancelledStillStored | services/service-trajet/src/services/trajetService.js:398-402 | removing a reservation and giving its seats back leaves a ride that still passes the validators and keeps its ledger, so the save after a cancellation cannot be refused |
| Service.TrajetService.Save | services/service-trajet/src/services/trajetService.js:344 | `save()` writes the document exactly when it passes the validators (and, for a new one, its id is free); otherwise nothing changes |
| Service.TrajetService.CreateTrajet | services/service-trajet/src/services/trajetService.js:12-66 | created exactly when the required fields are there and valid; the price is the given one (even 0), else the estimate, else 15.00, so pricing never decides creation; the driver's name falls back to "Conducteur <id>"; 0 reserved seats, no reservations |
| Service.TrajetService.Find | services/service-trajet/src/services/trajetService.js:105 | lists each stored ride the criterion selects exactly once, formatted, sorted by departure |
| Service.TrajetService.GetAllTrajets | services/service-trajet/src/services/trajetService.js:71-120 | lists exactly the rides the corrected filter admits (see Findings), sorted by departure |
| Service.TrajetService.GetTrajetById | services/service-trajet/src/services/trajetService.js:125-150 | the formatted ride when the id is stored, "Trajet non trouvé" otherwise |
| Service.TrajetService.GetTrajetsByUser | services/service-trajet/src/services/trajetService.js:155-184 | exactly the rides the user drives, or exactly those where the user holds a reservation, sorted by departure |
| Service.TrajetService.UpdateTrajet | services/service-trajet/src/services/trajetService.js:189-235 | a missing ride is "non trouvé"; a ride with reservations refuses a seat or date change and is returned unchanged; otherwise only the six patched fields change, id, driver, reserved seats and reservations never do, and the save fails exactly on an empty place name or fewer than 1 seat; every failure leaves the store unchanged |
| Service.TrajetService.DeleteTrajet | services/service-trajet/src/services/trajetService.js:240-272 | fails on a missing ride or one with reservations, with the store unchanged; otherwise removes exactly that ride |
| Service.TrajetService.BookTrajet | services/service-trajet/src/services/trajetService.js:277-367 | fixed check order: missing ride, then too few seats (quoting the free count), then own ride, then an existing reservation (returned unchanged), each with the store unchanged; then success exactly when the validators accept, which excludes booking the last free seat; success appends one reservation, moves its seats from free to reserved and keeps their total |
| Service.TrajetService.CancelBooking | services/service-trajet/src/services/trajetService.js:372-415 | succeeds exactly when a reservation has both this id and this passenger; removes exactly that one, gives its seats back, and a second cancel of it finds nothing; every failure leaves the store unchanged |
| Gateway.AsDriver | services/api-gateway/routes/trajet-routes.js:125-129 | the created ride's driver id and name are the caller's, whatever the body said; every other field is the body's |
| Gateway.AsPassenger | services/api-gateway/routes/trajet-routes.js:248-253 | the booking's passenger id and name are the caller's |
| RestRoutes.BearerToken | services/api-gateway/routes/trajet-routes.js:9 | a token is never empty and holds no space; it is absent when there is no header or the header holds no space |
| RestRoutes.BearerTokenOfHeader | services/api-gateway/routes/trajet-routes.js:9 | `<scheme> <token>`, alone or followed by further space-separated pieces, gives back exactly the token (the second piece) |
| RestRoutes.EmptySecondPieceGivesNoToken | services/api-gateway/routes/trajet-routes.js:9 | a header whose second piece is empty (nothing after the first space, or two spaces in a row) gives no token |
| RestRoutes.Request.Authenticate | services/api-gateway/routes/trajet-routes.js:8-38 | no token gives 401, a rejected token 401, a throwing verification 500, and in each case `req.user` is untouched; only a verified token stores the user and lets the handler run |
| RestRoutes.Request.Handle | services/api-gateway/routes/trajet-routes.js:84-86 | an authenticated route never runs its handler on a refused request, and runs it on the verified user otherwise |
| RestRoutes.CreateRoute | services/api-gateway/routes/trajet-routes.js:114-148 | only a "conducteur" reaches the service (403 otherwise), and the ride's driver is the caller |
| RestRoutes.ForwardedTarget | services/api-gateway/src/clients/trajet-client.js:69-71 | the ride the service updates is the body's `id` when the body has one, and the path id otherwise |
| RestRoutes.UpdateRouteAsWritten | services/api-gateway/routes/trajet-routes.js:151-185 | the update is called exactly when the path's ride exists and the caller drives it, otherwise 404 with the lookup's message or 403; the call carries the patch and targets the forwarded ride, not necessarily the checked one |
| RestRoutes.BodyIdRedirectsUpdate | services/api-gateway/routes/trajet-routes.js:168 | the driver of one ride who names another ride in the body gets that other ride updated, though its driver was never checked |
| RestRoutes.UpdateRoute | services/api-gateway/routes/trajet-routes.js:151-185 | the service's update is called exactly when the ride exists and the caller drives it, otherwise 404 with the lookup's message or 403; the ride updated is always the one whose driver was checked |
| RestRoutes.UpdateIgnoresBodyId | services/api-gateway/routes/trajet-routes.js:168 | the route does the same whatever `id` the body names, and agrees with the code as written on a body without one |
| RestRoutes.DeleteRoute | services/api-gateway/routes/trajet-routes.js:188-223 | the service's delete is called exactly when the ride exists and the caller drives it; otherwise 404 or 403 |
| RestRoutes.BookRoute | services/api-gateway/routes/trajet-routes.js:226-279 | the service is called exactly when the number is not NaN and is above 0, otherwise 400; the seats sent are the floor; the passenger is the caller |
| RestRoutes.CancelRoute | services/api-gateway/routes/trajet-routes.js:282-310 | the cancellation always names the caller as the passenger |
| RestRoutes.OwnRidesRoute | services/api-gateway/routes/trajet-routes.js:84-111 | the caller's own rides or own reservations are listed |
| RestRoutes.AfterService | services/api-gateway/routes/trajet-routes.js:259-269 | the service's success gives 201 for create and book and 200 otherwise; its failure gives 400; an event is published only by a mutating route on success |
| RestRoutes.FractionBelowOneBooksNothing | services/api-gateway/routes/trajet-routes.js:232-246 | a seat count strictly between 0 and 1 passes the check, reaches the service as 0, and can never be saved |
| RestRoutes.ForwardedSeats | services/api-gateway/routes/trajet-routes.js:232-246 | the seats forwarded are never negative, and are at least 1 exactly when at least 1 was asked for |
| Resolvers.CheckAuth | services/api-gateway/graphql/resolvers/trajetResolvers.js:5-21 | the user exactly when there is a token and it is verified; otherwise the unprefixed "Non authentifié" message, or "Erreur d'authentification: " followed by the rejection or the thrown message |
| Resolvers.OwnRides | services/api-gateway/graphql/resolvers/trajetResolvers.js:56-85 | an unauthenticated caller gets the auth error as a failure envelope; otherwise the caller's own rides or reservations |
| Resolvers.CreateTrajet | services/api-gateway/graphql/resolvers/trajetResolvers.js:90-119 | only an authenticated "conducteur" reaches the service, and the ride's driver is the caller |
| Resolvers.UpdateTrajet | services/api-gateway/graphql/resolvers/trajetResolvers.js:122-151 | the service's update is called exactly when the caller is authenticated, the ride exists and the caller drives it |
| Resolvers.DeleteTrajet | services/api-gateway/graphql/resolvers/trajetResolvers.js:154-184 | the service's delete is called exactly when the caller is authenticated, the ride exists and the caller drives it |
| Resolvers.BookTrajet | services/api-gateway/graphql/resolvers/trajetResolvers.js:187-209 | any authenticated caller's seat count is forwarded unchecked, with the caller as passenger |
| Resolvers.CancelBooking | services/api-gateway/graphql/resolvers/trajetResolvers.js:212-231 | the cancellation names the authenticated caller as the passenger |
| Resolvers.SeatCountReachesService | services/api-gateway/graphql/resolvers/trajetResolvers.js:191-196 | a seat count below 1 is refused by the REST route but forwarded by the resolver; the service's validators then refuse it |
| TrajetForm.SubmitDataOf | client/src/app/trajets/trajet-form/trajet-form.component.ts:127-136 | the submitted data carries the form's fields, with date and hour joined as `<date>T<hour>` |
| TrajetForm.NoErrorsIffComplete | client/src/app/trajets/trajet-form/trajet-form.component.ts:89-117 | no error exactly when both places, the date and the hour are non-empty, there is at least 1 seat and the price is above 0 |
| TrajetForm.ErrorPerFailedCheck | client/src/app/trajets/trajet-form/trajet-form.component.ts:90-114 | each check's message is listed exactly when that check fails; every entry is the message of a failed check, entries come in the order the checks run, and no message appears twice |
| TrajetForm.FreshFormFailsOnPrice | client/src/app/trajets/trajet-form/trajet-form.component.ts:18-26 | a fresh form with its texts filled in fails on the price alone |
| TrajetForm.TrajetFormComponent.constructor | client/src/app/trajets/trajet-form/trajet-form.component.ts:15-29 | the form starts with its default fields, not loading, with no errors |
| TrajetForm.TrajetFormComponent.ValidateForm | client/src/app/trajets/trajet-form/trajet-form.component.ts:89-117 | `errors` is rebuilt from the form alone, so a second call gives the same list; the result is true exactly when the form is complete |
| TrajetForm.TrajetFormComponent.OnSubmit | client/src/app/trajets/trajet-form/trajet-form.component.ts:119-181 | an invalid form sends nothing and leaves `isLoading` alone; a valid one sets `isLoading` and sends an update when a ride id is set, a create otherwise |
| ClientService.SeatsToBook | client/src/app/services/trajet.service.ts:283 | for every finite number and NaN, an integer of at least 1: the floor of a number of at least 1, and 1 for a missing, non-numeric, zero, negative or fractional-below-1 input |
| ClientService.ClientSeatsPassGateway | client/src/app/services/trajet.service.ts:283 | the seat count the client sends passes the REST check and reaches the service unchanged |
| ClientService.FilterParams | client/src/app/services/trajet.service.ts:236-248 | a parameter is present exactly when its filter field is truthy, with that field's value; a 0 seat minimum or price cap is left out, and no filters means no parameters |
| Scenario.SeatScenario | services/service-trajet/src/services/trajetService.js:277-415 | on a fresh store: a 3-seat ride; A books 2 (1 left); B's request for 2 is refused with "Il n'y a que 1 places disponibles"; A cancels (3 free again); the driver then deletes the ride |

## Left out

- Concurrency: each service operation is one atomic method. The source's non-atomic find-then-save and its interleavings are not modelled.
- Transport: gRPC and HTTP clients, and the routes' and resolvers' `catch` branches for a failing transport (answers 500 or a failure envelope with the thrown message).
- The service's `catch` branches for a database that is unreachable, and for a malformed id that Mongoose cannot cast to an ObjectId. These answer the generic error of the operation, not "non trouvé".
- The price estimator: its model and HTTP server are not part of this model. Only its outcome is an input.
- Event publishing and logging: only the decision whether an event is published is modelled (`RestRoutes.AfterService`).
- The auth service (hashing, tokens, sessions): token verification is an input function.
- Regular expressions: the place filters are an ASCII case-insensitive substring test, so a pattern with regex syntax is read literally. The source's `new RegExp(p, 'i')` also folds non-ASCII letters, so an accented capital such as É matches é there. The model does not: it folds only A-Z.
- Time zones and `Date` parsing: days are UTC days of integer milliseconds. An unparsable date (Invalid Date) is not modelled.
- ISO-8601 formatting of dates in `formatTrajet`: the view keeps the integer time.
- GET /trajets and GET /trajets/:id, and the public `trajets` and `trajet` queries: they forward to the service with no decision of their own. The query-string `parseInt`/`parseFloat` of GET /trajets is not modelled.
- RestRoutes.BookRoute: `Number()` yielding Infinity is not modelled; finite numbers and NaN are.
- ClientService.SeatsToBook: an Infinity input is not modelled. There `Math.floor` keeps Infinity, so the client sends Infinity rather than an integer; finite numbers and NaN are modelled.
- Service.TrajetService.UpdateTrajet: a `null` patch field is not modelled; `Option` reads a field that is absent or `null` as "not sent". The source tests `!== undefined`, so a `null` from the JSON body or a nullable GraphQL input field counts as sent. A `null` seat count or date on a ride with reservations is refused as frozen. A `null` place name, seat count or price fails the `required` validators at save. A `null` description clears it.
- RestRoutes.UpdateRoute: the body keeps only the six patch fields and an `id` key; any other key of the body is dropped. The route is the corrected one of the Findings row: it drops the body's `id`. The code as written is `RestRoutes.UpdateRouteAsWritten`.
- Service.TrajetService.GetAllTrajets: lists the rides the corrected date filter admits (on the filter's day and from now on), not the code's query, which also lists rides from now up to the start of that day; the code as written is `Query.BuildQueryAsWritten` with `Query.AdmitsAsWritten` (see Findings).
- Service.TrajetService.CancelBooking: `parseInt(passagerId)` is modelled as the identity on integer ids. Ids given as text are not modelled.
- TrajetForm.TrajetFormComponent.OnSubmit: the date is kept as the joined `<date>T<hour>` text. `new Date(...).toISOString()` and its failure on an invalid date are not modelled. The subscribe callbacks (alert, navigation, pushing the service's error message) are not modelled either.
- The form's `ngOnInit` and `loadTrajet` (today's date, loading a ride into the form), and the rest of the client UI.

## Findings

| source | as written | input that shows it | evidently intended | confidence | as-written member | corrected member |
|---|---|---|---|---|---|---|
| services/service-trajet/src/services/trajetService.js:102 | the future-only bound `$gte: now` is spread after the date filter's `{ $gte: startOfDay, $lte: endOfDay }`, so it replaces the start-of-day bound | date filter for the second day (86 400 000 ms), current time 0, a ride departing at time 0 on the first day: it is listed | a ride is listed only when it departs on the filter's day and from now on (lower bound max(startOfDay, now)) | high; not executed | Query.EarlierDayLeaksThroughDateFilter | Query.BuildQuery |
| services/api-gateway/routes/trajet-routes.js:168 | the ownership check is made on the path id, but the body is passed on whole, and the gateway's client sends `{ id, ...body }` (services/api-gateway/src/clients/trajet-client.js:71), so a body `id` replaces the path id that the service's server reads (services/service-trajet/src/grpc/grpc-server.js:82) | the driver of ride A sends PUT /trajets/A with body `{"id": "B", "prix": 1}`: ride B, driven by someone else, is repriced | only the ride whose driver was checked is updated: the body's `id` is dropped | medium (the gRPC message definition is not part of this model); not executed | RestRoutes.BodyIdRedirectsUpdate | RestRoutes.UpdateRoute |
