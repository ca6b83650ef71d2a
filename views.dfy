/** `formatTrajet`: the ride as the service sends it back. Each document
    field becomes a response field (`_id` becomes `id`, dates would become
    ISO strings); here times stay integers, so the projection loses nothing
    and can be undone. */
module Views {
  import opened Wrappers
  import opened Schema

  datatype ReservationView = ReservationView(
    id: string,
    passagerId: int,
    passagerNom: string,
    places: int,
    dateReservation: int)

  datatype TrajetView = TrajetView(
    id: string,
    depart: string,
    destination: string,
    conducteurId: int,
    conducteurNom: string,
    dateDepart: int,
    placesDisponibles: int,
    placesReservees: int,
    prix: real,
    description: Option<string>,
    dateCreation: int,
    reservations: seq<ReservationView>)

  function FormatReservation(r: Reservation): (v: ReservationView)
  {
    ReservationView(r.id, r.passagerId, r.passagerNom, r.places, r.dateReservation)
  }

  function FormatTrajet(t: Trajet): (v: TrajetView)
    ensures |v.reservations| == |t.reservations|
    ensures forall i :: 0 <= i < |t.reservations| ==> v.reservations[i] == FormatReservation(t.reservations[i])
  {
    TrajetView(t.id, t.depart, t.destination, t.conducteurId, t.conducteurNom, t.dateDepart,
               t.placesDisponibles, t.placesReservees, t.prix, t.description, t.dateCreation,
               seq(|t.reservations|, i requires 0 <= i < |t.reservations| => FormatReservation(t.reservations[i])))
  }

  /** Reading a response back into a document. */
  function ParseTrajet(v: TrajetView): (t: Trajet)
  {
    Trajet(v.id, v.depart, v.destination, v.conducteurId, v.conducteurNom, v.dateDepart,
           v.placesDisponibles, v.placesReservees, v.prix, v.description, v.dateCreation,
           seq(|v.reservations|, i requires 0 <= i < |v.reservations| =>
             var r := v.reservations[i];
             Reservation(r.id, r.passagerId, r.passagerNom, r.places, r.dateReservation)))
  }

  /** formatTrajet drops no field: the document can be read back from it. */
  lemma FormatRoundTrip(t: Trajet)
    ensures ParseTrajet(FormatTrajet(t)) == t
  {
    var back := ParseTrajet(FormatTrajet(t));
    assert back.reservations == t.reservations;
  }

  /** Hence two different documents never format alike. */
  lemma FormatInjective(a: Trajet, b: Trajet)
    requires FormatTrajet(a) == FormatTrajet(b)
    ensures a == b
  {
    FormatRoundTrip(a);
    FormatRoundTrip(b);
  }
}
