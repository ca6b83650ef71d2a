/** The client's ride service: the seat count it sends with a booking and the
    query parameters it builds from the search filters. */
module ClientService {
  import opened Wrappers
  import opened Gateway
  import RestRoutes

  /** `Number(Math.max(1, Math.floor(Number(places) || 1)))`; `places` is
      `Number(places)`, with `None` for NaN. */
  function SeatsToBook(places: Option<real>): (n: int)
    ensures n >= 1
    ensures places.Some? && places.value >= 1.0 ==> n == places.value.Floor
    ensures places.None? || places.value < 1.0 ==> n == 1
  {
    var numeric := if places.None? || places.value == 0.0 then 1.0 else places.value;
    var floored := numeric.Floor;
    if floored < 1 then 1 else floored
  }

  /** The seat count the client sends passes the REST route's check and
      reaches the ride service unchanged. */
  lemma ClientSeatsPassGateway(user: User, trajetId: string, places: Option<real>)
    ensures RestRoutes.BookRoute(user, trajetId, Some(SeatsToBook(places) as real))
            == RestRoutes.Call(BookCall(trajetId, AsPassenger(user, SeatsToBook(places))))
  {
    var n := SeatsToBook(places);
    assert (n as real).Floor == n;
  }

  /** The search filters of the client; a number is `None` when it is
      `undefined` or NaN. */
  datatype ClientFilters = ClientFilters(
    depart: string,
    destination: string,
    dateDepart: string,
    placesMinimum: Option<real>,
    prixMax: Option<real>)

  /** A value given to `HttpParams.set`. */
  datatype ParamValue = Text(text: string) | Number(number: real)

  /** JavaScript truthiness of a number. */
  predicate TruthyNumber(x: Option<real>)
  {
    x.Some? && x.value != 0.0
  }

  /** `getAllTrajets(filters)`: the query parameters, one per truthy filter
      field. */
  method FilterParams(filters: Option<ClientFilters>) returns (params: map<string, ParamValue>)
    ensures filters.None? ==> params == map[]
    ensures params.Keys <= {"depart", "destination", "dateDepart", "placesMinimum", "prixMax"}
    ensures filters.Some? ==>
      var f := filters.value;
      && ("depart" in params <==> f.depart != "")
      && ("depart" in params ==> params["depart"] == Text(f.depart))
      && ("destination" in params <==> f.destination != "")
      && ("destination" in params ==> params["destination"] == Text(f.destination))
      && ("dateDepart" in params <==> f.dateDepart != "")
      && ("dateDepart" in params ==> params["dateDepart"] == Text(f.dateDepart))
      && ("placesMinimum" in params <==> TruthyNumber(f.placesMinimum))
      && ("placesMinimum" in params ==> params["placesMinimum"] == Number(f.placesMinimum.value))
      && ("prixMax" in params <==> TruthyNumber(f.prixMax))
      && ("prixMax" in params ==> params["prixMax"] == Number(f.prixMax.value))
  {
    params := map[];
    if filters.Some? {
      var f := filters.value;
      if f.depart != "" { params := params["depart" := Text(f.depart)]; }
      if f.destination != "" { params := params["destination" := Text(f.destination)]; }
      if f.dateDepart != "" { params := params["dateDepart" := Text(f.dateDepart)]; }
      if TruthyNumber(f.placesMinimum) { params := params["placesMinimum" := Number(f.placesMinimum.value)]; }
      if TruthyNumber(f.prixMax) { params := params["prixMax" := Number(f.prixMax.value)]; }
    }
  }
}
