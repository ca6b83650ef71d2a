/** The two Mongoose schemas of the ride service (ReservationSchema and
    TrajetSchema): the shape of a ride document, the defaults applied when one
    is built, and the validators that every `save()` runs. A save whose
    document fails them is refused and writes nothing. */
module Schema {
  import opened Wrappers

  /** One element of a ride's embedded `reservations` array. Times are
      milliseconds since the epoch. */
  datatype Reservation = Reservation(
    id: string,
    passagerId: int,
    passagerNom: string,
    places: int,
    dateReservation: int)

  /** A ride document as stored. `id` is the document's `_id`. */
  datatype Trajet = Trajet(
    id: string,
    depart: string,
    destination: string,
    conducteurId: int,
    conducteurNom: string,
    dateDepart: int,
    placesDisponibles: int,
    placesReservees: int,
    prix: real,
    description: Option<string>,
    dateCreation: int,
    reservations: seq<Reservation>)

  /** The values handed to `new Trajet({...})`. The numeric and date paths
      marked `required` may be absent (`undefined`), an absent string path is
      the empty string. */
  datatype TrajetFields = TrajetFields(
    depart: string,
    destination: string,
    conducteurId: Option<int>,
    conducteurNom: string,
    dateDepart: Option<int>,
    placesDisponibles: Option<int>,
    prix: Option<real>,
    description: Option<string>)

  /** Smallest value the `min` validators accept, for `places` of a
      reservation and for `placesDisponibles` of a ride. */
  const MinPlaces: int := 1

  /** `required: true` on a String path: Mongoose's check also refuses the
      empty string. */
  predicate RequiredString(s: string)
  {
    |s| > 0
  }

  /** ReservationSchema: string `_id`, `passagerNom` required, `places >= 1`.
      (`passagerId` is a required Number, always present in this model.) */
  predicate ValidReservation(r: Reservation)
  {
    RequiredString(r.id) && RequiredString(r.passagerNom) && r.places >= MinPlaces
  }

  /** TrajetSchema, including the validation of every embedded reservation. */
  predicate ValidTrajet(t: Trajet)
  {
    && RequiredString(t.depart)
    && RequiredString(t.destination)
    && t.placesDisponibles >= MinPlaces
    && forall i :: 0 <= i < |t.reservations| ==> ValidReservation(t.reservations[i])
  }

  /** The required paths that have no default: the numeric and date ones
      must be present, the string ones non-empty (checked by ValidTrajet). */
  predicate HasRequiredPaths(f: TrajetFields)
  {
    f.conducteurId.Some? && f.dateDepart.Some? && f.placesDisponibles.Some? && f.prix.Some?
  }

  /** `new Trajet(fields)` with `_id` `id`, built at time `now`: the schema
      defaults give `placesReservees = 0`, no reservations and
      `dateCreation = now`. */
  function Build(id: string, f: TrajetFields, now: int): (t: Trajet)
    requires HasRequiredPaths(f)
    ensures t.placesReservees == 0 && t.reservations == [] && t.dateCreation == now
    ensures t.id == id && t.conducteurId == f.conducteurId.value && t.prix == f.prix.value
    ensures t.placesDisponibles == f.placesDisponibles.value && t.dateDepart == f.dateDepart.value
    ensures t.depart == f.depart && t.destination == f.destination
    ensures t.conducteurNom == f.conducteurNom && t.description == f.description
  {
    Trajet(id, f.depart, f.destination, f.conducteurId.value, f.conducteurNom,
           f.dateDepart.value, f.placesDisponibles.value, 0, f.prix.value,
           f.description, now, [])
  }

  /** Saving a freshly built document succeeds exactly when every required
      path is there, both place names are non-empty and at least one seat is
      offered. */
  predicate Creatable(f: TrajetFields)
  {
    && HasRequiredPaths(f)
    && RequiredString(f.depart) && RequiredString(f.destination)
    && f.placesDisponibles.value >= MinPlaces
  }

  lemma CreatableIsValid(id: string, f: TrajetFields, now: int)
    requires HasRequiredPaths(f)
    ensures Creatable(f) <==> ValidTrajet(Build(id, f, now))
  {
  }
}
