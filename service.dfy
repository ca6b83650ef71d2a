/** The ride service: every operation reads one ride document, checks it,
    changes it and saves it. The database is the field `trajets`, a map from
    document id to document; `Save` is Mongoose's `save()`, which runs the
    schema validators and writes nothing when they fail. Every failure path
    of every operation leaves `trajets` as it was. */
module Service {
  import opened Wrappers
  import opened Text
  import opened Schema
  import opened Seats
  import opened Views
  import opened Query

  /** The fields of an update request; `None` is `undefined` (not sent). */
  datatype Patch = Patch(
    depart: Option<string>,
    destination: Option<string>,
    dateDepart: Option<int>,
    placesDisponibles: Option<int>,
    prix: Option<real>,
    description: Option<string>)

  /** The data of a booking request. */
  datatype Booking = Booking(passagerId: int, passagerNom: string, places: int)

  datatype TrajetResponse = TrajetResponse(success: bool, message: string, trajet: Option<TrajetView>)
  datatype TrajetsResponse = TrajetsResponse(success: bool, message: string, trajets: seq<TrajetView>)
  datatype BookingResponse = BookingResponse(success: bool, message: string,
                                             reservation: Option<ReservationView>, trajet: Option<TrajetView>)
  datatype DeleteResponse = DeleteResponse(success: bool, message: string)

  /** Which rides a listing asks for. */
  datatype Criterion = ByQuery(q: MongoQuery) | ByDriver(driverId: int) | ByPassenger(passagerId: int)

  /** The price used when none is given and the estimate is unavailable. */
  const DefaultPrix: real := 15.00

  const TrajetNotFound := "Trajet non trouvé"
  const ReservationNotFound := "Réservation non trouvée"
  const CreateFailed := "Erreur lors de la création du trajet"
  const UpdateFailed := "Erreur lors de la mise à jour du trajet"
  const BookFailed := "Erreur lors de la réservation du trajet"
  const UpdateFrozen := "Impossible de modifier le nombre de places ou la date d'un trajet avec des réservations"
  const DeleteFrozen := "Impossible de supprimer un trajet avec des réservations"
  const OwnRide := "Vous ne pouvez pas réserver votre propre trajet"
  const AlreadyBooked := "Vous avez déjà réservé ce trajet"

  /** The refusal of a booking for more seats than are free; it quotes the
      number of free seats. */
  function NotEnoughSeats(placesDisponibles: int): string
  {
    "Il n'y a que " + IntToString(placesDisponibles) + " places disponibles"
  }

  /** `conducteurNom || \`Conducteur ${conducteurId}\``. */
  function DriverName(f: TrajetFields): (name: string)
    ensures f.conducteurNom != "" ==> name == f.conducteurNom
    ensures f.conducteurNom == "" && f.conducteurId.Some? ==> name == "Conducteur " + IntToString(f.conducteurId.value)
    ensures name != ""
  {
    if f.conducteurNom != "" then f.conducteurNom
    else if f.conducteurId.Some? then "Conducteur " + IntToString(f.conducteurId.value)
    else "Conducteur undefined"
  }

  /** `value !== undefined ? value : current`. */
  function Override<T>(value: Option<T>, current: T): T
  {
    if value.Some? then value.value else current
  }

  /** A ride that has reservations may not have its seats or date changed. */
  predicate Frozen(t: Trajet, p: Patch)
  {
    |t.reservations| > 0 && (p.placesDisponibles.Some? || p.dateDepart.Some?)
  }

  /** What the validators ask of the fields a patch sets. */
  predicate PatchSaveable(p: Patch)
  {
    && (p.depart.Some? ==> p.depart.value != "")
    && (p.destination.Some? ==> p.destination.value != "")
    && (p.placesDisponibles.Some? ==> p.placesDisponibles.value >= MinPlaces)
  }

  /** What the validators ask of a new reservation and of the ride after it:
      at least one seat booked and at least one seat still free. */
  predicate BookingSaveable(t: Trajet, b: Booking, reservationId: string)
  {
    && MinPlaces <= b.places && t.placesDisponibles - b.places >= MinPlaces
    && b.passagerNom != "" && reservationId != ""
  }

  /** Which rides each listing selects. */
  predicate Selects(c: Criterion, t: Trajet)
  {
    match c
    case ByQuery(q) => Matches(q, t)
    case ByDriver(d) => t.conducteurId == d
    case ByPassenger(p) => FindByPassenger(t.reservations, p).Some?
  }

  predicate SortedByDeparture(vs: seq<TrajetView>)
  {
    forall i, j :: 0 <= i < j < |vs| ==> vs[i].dateDepart <= vs[j].dateDepart
  }

  /** Insertion into a list sorted by departure (the database's
      `.sort({ dateDepart: 1 })`). */
  function InsertByDeparture(vs: seq<TrajetView>, v: TrajetView): (r: seq<TrajetView>)
    requires SortedByDeparture(vs)
    ensures SortedByDeparture(r)
    ensures multiset(r) == multiset(vs) + multiset{v}
    ensures r[0] == if vs == [] || v.dateDepart <= vs[0].dateDepart then v else vs[0]
  {
    if vs == [] || v.dateDepart <= vs[0].dateDepart then [v] + vs
    else
      assert vs == [vs[0]] + vs[1..];
      [vs[0]] + InsertByDeparture(vs[1..], v)
  }

  /** Each document is stored under its own id, passes the schema and keeps
      the seat ledger. */
  predicate Stored(k: string, t: Trajet)
  {
    t.id == k && ValidTrajet(t) && Ledger(t)
  }

  ghost predicate KeyedById(db: map<string, Trajet>)
  {
    forall k :: k in db ==> db[k].id == k
  }

  ghost predicate ValidStore(db: map<string, Trajet>)
  {
    KeyedById(db) && forall k :: k in db ==> Stored(k, db[k])
  }

  lemma StoreKeepsValid(db: map<string, Trajet>, k: string, t: Trajet)
    requires ValidStore(db) && Stored(k, t)
    ensures ValidStore(db[k := t])
  {
  }

  /** The ids of the stored rides a criterion selects. */
  ghost function Selection(db: map<string, Trajet>, c: Criterion): set<string>
  {
    set k | k in db && Selects(c, db[k])
  }

  ghost function Ids(vs: seq<TrajetView>): set<string>
  {
    set v | v in vs :: v.id
  }

  /** `vs` lists each ride of `db` whose id is in `keys` exactly once, as
      formatTrajet shows it, in order of departure. */
  ghost predicate ListsExactly(db: map<string, Trajet>, vs: seq<TrajetView>, keys: set<string>)
  {
    && SortedByDeparture(vs)
    && |vs| == |keys|
    && Ids(vs) == keys
    && (forall v :: v in vs ==> v.id in db && v == FormatTrajet(db[v.id]))
  }

  /** One step of a listing: adding one more selected ride. */
  lemma InsertExtendsListing(db: map<string, Trajet>, vs: seq<TrajetView>, keys: set<string>, k: string)
    requires ListsExactly(db, vs, keys)
    requires k in db && db[k].id == k && k !in keys
    ensures ListsExactly(db, InsertByDeparture(vs, FormatTrajet(db[k])), keys + {k})
  {
    var v := FormatTrajet(db[k]);
    var r := InsertByDeparture(vs, v);
    assert forall x :: x in r <==> x in vs || x == v by {
      forall x ensures x in r <==> x in vs || x == v {
        assert x in r <==> x in multiset(r);
        assert x in vs <==> x in multiset(vs);
      }
    }
    assert |r| == |multiset(r)| == |vs| + 1;
    assert Ids(r) == Ids(vs) + {k};
  }

  /** A patch that leaves the ride's id, driver, counters' reserved side
      and reservations alone keeps the ledger; the validators then accept the
      patched ride exactly when the patch itself is acceptable. */
  lemma PatchedStillStored(k: string, t: Trajet, u: Trajet, p: Patch)
    requires Stored(k, t)
    requires u.id == t.id && u.conducteurId == t.conducteurId
    requires u.placesReservees == t.placesReservees && u.reservations == t.reservations
    requires u.depart == Override(p.depart, t.depart) && u.destination == Override(p.destination, t.destination)
    requires u.placesDisponibles == Override(p.placesDisponibles, t.placesDisponibles)
    ensures ValidTrajet(u) <==> PatchSaveable(p)
    ensures ValidTrajet(u) ==> Stored(k, u)
  {
  }

  /** A booking by a passenger who is neither the driver nor already booked
      keeps the ledger; the validators then accept the booked ride exactly
      when the seat counts and names are acceptable. */
  lemma BookedStillStored(k: string, t: Trajet, b: Booking, res: Reservation)
    requires Stored(k, t)
    requires b.passagerId != t.conducteurId && FindByPassenger(t.reservations, b.passagerId).None?
    requires res.passagerId == b.passagerId && res.passagerNom == b.passagerNom && res.places == b.places
    ensures var u := t.(reservations := t.reservations + [res],
                        placesReservees := t.placesReservees + res.places,
                        placesDisponibles := t.placesDisponibles - res.places);
            && (ValidTrajet(u) <==> BookingSaveable(t, b, res.id))
            && (ValidTrajet(u) ==> Stored(k, u))
            && u.placesDisponibles + u.placesReservees == t.placesDisponibles + t.placesReservees
  {
    BookingKeepsLedger(t, res);
    var u := t.(reservations := t.reservations + [res],
                placesReservees := t.placesReservees + res.places,
                placesDisponibles := t.placesDisponibles - res.places);
    assert u.reservations[|t.reservations|] == res;
    assert forall i :: 0 <= i < |t.reservations| ==> u.reservations[i] == t.reservations[i];
  }

  /** Removing a reservation and giving its seats back keeps a stored ride
      valid: the remaining reservations were valid, and the free seats only
      grow. */
  lemma CancelledStillStored(k: string, t: Trajet, i: nat)
    requires Stored(k, t) && i < |t.reservations|
    ensures var p := t.reservations[i].places;
            Stored(k, t.(reservations := RemoveAt(t.reservations, i),
                         placesReservees := t.placesReservees - p,
                         placesDisponibles := t.placesDisponibles + p))
  {
    CancelKeepsLedger(t, i);
    assert ValidReservation(t.reservations[i]);
  }

  /** One iteration of the listing loop: key `k` leaves the keys still to
      visit, and joins the listing when the criterion selects its ride. */
  lemma ListingStep(db: map<string, Trajet>, c: Criterion, todo: set<string>, done: set<string>,
                    found: seq<TrajetView>, k: string)
    requires KeyedById(db) && todo <= db.Keys && k in todo
    requires done == Selection(db, c) - todo && ListsExactly(db, found, done)
    ensures Selects(c, db[k]) ==>
      && done + {k} == Selection(db, c) - (todo - {k})
      && ListsExactly(db, InsertByDeparture(found, FormatTrajet(db[k])), done + {k})
    ensures !Selects(c, db[k]) ==> done == Selection(db, c) - (todo - {k})
  {
    if Selects(c, db[k]) {
      InsertExtendsListing(db, found, done, k);
    }
  }

  class TrajetService {
    var trajets: map<string, Trajet>

    ghost predicate Valid()
      reads this
    {
      ValidStore(trajets)
    }

    constructor ()
      ensures Valid() && trajets == map[]
    {
      trajets := map[];
    }

    /** `document.save()`: runs the validators; a new document is also
        refused when its id is taken. Nothing is written on refusal. */
    method Save(t: Trajet, isNew: bool) returns (saved: bool)
      modifies this
      ensures saved <==> ValidTrajet(t) && (isNew ==> t.id !in old(trajets))
      ensures saved ==> trajets == old(trajets)[t.id := t]
      ensures !saved ==> trajets == old(trajets)
    {
      saved := ValidTrajet(t) && (isNew ==> t.id !in trajets);
      if saved {
        trajets := trajets[t.id := t];
      }
    }

    /** createTrajet. A missing price comes from the estimate `estimate`
        (`None`: the estimate failed or threw) and falls back to 15.00; the
        price never decides whether the ride is created. */
    method CreateTrajet(data: TrajetFields, newId: string, now: int, estimate: Option<real>)
      returns (r: TrajetResponse)
      requires Valid()
      modifies this
      ensures Valid()
      ensures r.success <==> newId !in old(trajets) && Creatable(data.(prix := Some(0.0)))
      ensures !r.success ==> r == TrajetResponse(false, CreateFailed, None) && trajets == old(trajets)
      ensures r.success ==>
        && newId in trajets && trajets == old(trajets)[newId := trajets[newId]]
        && var t := trajets[newId];
        && r == TrajetResponse(true, "Trajet créé avec succès", Some(FormatTrajet(t)))
        && t.prix == (if data.prix.Some? then data.prix.value
                      else if estimate.Some? then estimate.value else DefaultPrix)
        && t.conducteurNom == DriverName(data)
        && t.conducteurId == data.conducteurId.value
        && t.depart == data.depart && t.destination == data.destination
        && t.dateDepart == data.dateDepart.value
        && t.placesDisponibles == data.placesDisponibles.value
        && t.description == data.description
        && t.placesReservees == 0 && t.reservations == [] && t.dateCreation == now
    {
      var prix := data.prix;
      if prix.None? {
        if estimate.Some? {
          prix := estimate;
        } else {
          prix := Some(DefaultPrix);
        }
      }
      var fields := data.(conducteurNom := DriverName(data), prix := prix);
      if !HasRequiredPaths(fields) {
        return TrajetResponse(false, CreateFailed, None);
      }
      var t := Build(newId, fields, now);
      var saved := Save(t, true);
      if saved {
        r := TrajetResponse(true, "Trajet créé avec succès", Some(FormatTrajet(t)));
      } else {
        r := TrajetResponse(false, CreateFailed, None);
      }
    }

    /** The database's `find(criterion).sort({ dateDepart: 1 })`, each
        result passed through formatTrajet. */
    method Find(c: Criterion) returns (found: seq<TrajetView>)
      requires KeyedById(trajets)
      ensures ListsExactly(trajets, found, Selection(trajets, c))
    {
      var todo := trajets.Keys;
      ghost var done: set<string> := {};
      found := [];
      while todo != {}
        invariant todo <= trajets.Keys
        invariant done == Selection(trajets, c) - todo
        invariant ListsExactly(trajets, found, done)
        decreases todo
      {
        var k :| k in todo;
        ListingStep(trajets, c, todo, done, found, k);
        if Selects(c, trajets[k]) {
          found := InsertByDeparture(found, FormatTrajet(trajets[k]));
          done := done + {k};
        }
        todo := todo - {k};
      }
    }

    /** getAllTrajets: the rides the filters admit, in order of departure. */
    method GetAllTrajets(filters: Filters, now: int) returns (r: TrajetsResponse)
      requires Valid()
      ensures r.success && r.message == "Trajets récupérés avec succès"
      ensures ListsExactly(trajets, r.trajets, set k | k in trajets && Admits(filters, now, trajets[k]))
    {
      var query := BuildQuery(filters, now);
      var found := Find(ByQuery(query));
      assert Selection(trajets, ByQuery(query)) == set k | k in trajets && Admits(filters, now, trajets[k]);
      r := TrajetsResponse(true, "Trajets récupérés avec succès", found);
    }

    /** getTrajetById. */
    method GetTrajetById(id: string) returns (r: TrajetResponse)
      ensures r.success <==> id in trajets
      ensures r.success ==> r == TrajetResponse(true, "Trajet récupéré avec succès", Some(FormatTrajet(trajets[id])))
      ensures !r.success ==> r == TrajetResponse(false, TrajetNotFound, None)
    {
      if id !in trajets {
        return TrajetResponse(false, TrajetNotFound, None);
      }
      r := TrajetResponse(true, "Trajet récupéré avec succès", Some(FormatTrajet(trajets[id])));
    }

    /** getTrajetsByUser: the rides the user drives, or (`asPassenger`) the
        rides where the user holds a reservation, in order of departure. */
    method GetTrajetsByUser(userId: int, asPassenger: bool) returns (r: TrajetsResponse)
      requires Valid()
      ensures r.success
      ensures !asPassenger ==> ListsExactly(trajets, r.trajets, set k | k in trajets && trajets[k].conducteurId == userId)
      ensures asPassenger ==> ListsExactly(trajets, r.trajets,
        set k | k in trajets && exists i :: 0 <= i < |trajets[k].reservations| && trajets[k].reservations[i].passagerId == userId)
    {
      var found;
      if asPassenger {
        found := Find(ByPassenger(userId));
        assert Selection(trajets, ByPassenger(userId)) ==
          set k | k in trajets && exists i :: 0 <= i < |trajets[k].reservations| && trajets[k].reservations[i].passagerId == userId;
      } else {
        found := Find(ByDriver(userId));
        assert Selection(trajets, ByDriver(userId)) == set k | k in trajets && trajets[k].conducteurId == userId;
      }
      r := TrajetsResponse(true, "Trajets récupérés avec succès", found);
    }

    /** updateTrajet. */
    method UpdateTrajet(id: string, patch: Patch) returns (r: TrajetResponse)
      requires Valid()
      modifies this
      ensures Valid()
      ensures !r.success ==> trajets == old(trajets)
      ensures id !in old(trajets) ==> r == TrajetResponse(false, TrajetNotFound, None)
      ensures id in old(trajets) && Frozen(old(trajets)[id], patch) ==>
        r == TrajetResponse(false, UpdateFrozen, Some(FormatTrajet(old(trajets)[id])))
      ensures id in old(trajets) && !Frozen(old(trajets)[id], patch) ==>
        (r.success <==> PatchSaveable(patch)) &&
        (!r.success ==> r == TrajetResponse(false, UpdateFailed, None))
      ensures r.success ==>
        && id in old(trajets) && trajets.Keys == old(trajets).Keys
        && (forall k :: k in trajets && k != id ==> trajets[k] == old(trajets)[k])
        && var t, u := old(trajets)[id], trajets[id];
        && r == TrajetResponse(true, "Trajet mis à jour avec succès", Some(FormatTrajet(u)))
        && u.id == t.id && u.conducteurId == t.conducteurId && u.conducteurNom == t.conducteurNom
        && u.placesReservees == t.placesReservees && u.reservations == t.reservations
        && u.dateCreation == t.dateCreation
        && u.depart == Override(patch.depart, t.depart)
        && u.destination == Override(patch.destination, t.destination)
        && u.dateDepart == Override(patch.dateDepart, t.dateDepart)
        && u.placesDisponibles == Override(patch.placesDisponibles, t.placesDisponibles)
        && u.prix == Override(patch.prix, t.prix)
        && u.description == (if patch.description.Some? then patch.description else t.description)
    {
      if id !in trajets {
        return TrajetResponse(false, TrajetNotFound, None);
      }
      var t := trajets[id];
      if |t.reservations| > 0 && (patch.placesDisponibles.Some? || patch.dateDepart.Some?) {
        return TrajetResponse(false, UpdateFrozen, Some(FormatTrajet(t)));
      }
      // each field the patch carries overwrites the stored one
      t := t.(depart := Override(patch.depart, t.depart),
              destination := Override(patch.destination, t.destination),
              dateDepart := Override(patch.dateDepart, t.dateDepart),
              placesDisponibles := Override(patch.placesDisponibles, t.placesDisponibles),
              prix := Override(patch.prix, t.prix),
              description := if patch.description.Some? then patch.description else t.description);
      PatchedStillStored(id, trajets[id], t, patch);
      var saved := Save(t, false);
      if saved {
        StoreKeepsValid(old(trajets), id, t);
        r := TrajetResponse(true, "Trajet mis à jour avec succès", Some(FormatTrajet(t)));
      } else {
        r := TrajetResponse(false, UpdateFailed, None);
      }
    }

    /** deleteTrajet. */
    method DeleteTrajet(id: string) returns (r: DeleteResponse)
      requires Valid()
      modifies this
      ensures Valid()
      ensures id !in old(trajets) ==> r == DeleteResponse(false, TrajetNotFound) && trajets == old(trajets)
      ensures id in old(trajets) && |old(trajets)[id].reservations| > 0 ==>
        r == DeleteResponse(false, DeleteFrozen) && trajets == old(trajets)
      ensures r.success <==> id in old(trajets) && old(trajets)[id].reservations == []
      ensures r.success ==> r.message == "Trajet supprimé avec succès" && trajets == old(trajets) - {id}
    {
      if id !in trajets {
        return DeleteResponse(false, TrajetNotFound);
      }
      var t := trajets[id];
      if |t.reservations| > 0 {
        return DeleteResponse(false, DeleteFrozen);
      }
      trajets := trajets - {id};
      r := DeleteResponse(true, "Trajet supprimé avec succès");
    }

    /** bookTrajet. The checks run in this order: the ride exists, it has
        enough free seats, the passenger is not its driver, the passenger has
        no reservation on it yet; then the save's validators. The new
        reservation's id is `reservationId` (a fresh uuid) and its date `now`. */
    method BookTrajet(trajetId: string, booking: Booking, reservationId: string, now: int)
      returns (r: BookingResponse)
      requires Valid()
      modifies this
      ensures Valid()
      ensures !r.success ==> trajets == old(trajets)
      ensures trajetId !in old(trajets) ==> r == BookingResponse(false, TrajetNotFound, None, None)
      ensures trajetId in old(trajets) ==>
        var t := old(trajets)[trajetId];
        && (t.placesDisponibles < booking.places ==>
              r == BookingResponse(false, NotEnoughSeats(t.placesDisponibles), None, Some(FormatTrajet(t))))
        && (booking.places <= t.placesDisponibles && t.conducteurId == booking.passagerId ==>
              r == BookingResponse(false, OwnRide, None, Some(FormatTrajet(t))))
        && (booking.places <= t.placesDisponibles && t.conducteurId != booking.passagerId
            && FindByPassenger(t.reservations, booking.passagerId).Some? ==>
              r == BookingResponse(false, AlreadyBooked,
                     Some(FormatReservation(FindByPassenger(t.reservations, booking.passagerId).value)),
                     Some(FormatTrajet(t))))
        && (booking.places <= t.placesDisponibles && t.conducteurId != booking.passagerId
            && FindByPassenger(t.reservations, booking.passagerId).None? ==>
              (r.success <==> BookingSaveable(t, booking, reservationId)) &&
              (!r.success ==> r == BookingResponse(false, BookFailed, None, None)))
      ensures trajetId in old(trajets) && booking.places == old(trajets)[trajetId].placesDisponibles ==> !r.success
      ensures r.success ==>
        && trajetId in old(trajets)
        && var t := old(trajets)[trajetId];
        && var res := Reservation(reservationId, booking.passagerId, booking.passagerNom, booking.places, now);
        && var b := t.(reservations := t.reservations + [res],
                       placesReservees := t.placesReservees + booking.places,
                       placesDisponibles := t.placesDisponibles - booking.places);
        && trajets == old(trajets)[trajetId := b]
        && b.placesDisponibles + b.placesReservees == t.placesDisponibles + t.placesReservees
        && r == BookingResponse(true, "Réservation effectuée avec succès",
                                Some(FormatReservation(res)), Some(FormatTrajet(b)))
    {
      if trajetId !in trajets {
        return BookingResponse(false, TrajetNotFound, None, None);
      }
      var t := trajets[trajetId];
      if t.placesDisponibles < booking.places {
        return BookingResponse(false, NotEnoughSeats(t.placesDisponibles), None, Some(FormatTrajet(t)));
      }
      if t.conducteurId == booking.passagerId {
        return BookingResponse(false, OwnRide, None, Some(FormatTrajet(t)));
      }
      var existing := FindByPassenger(t.reservations, booking.passagerId);
      if existing.Some? {
        return BookingResponse(false, AlreadyBooked, Some(FormatReservation(existing.value)), Some(FormatTrajet(t)));
      }
      var res := Reservation(reservationId, booking.passagerId, booking.passagerNom, booking.places, now);
      BookedStillStored(trajetId, t, booking, res);
      t := t.(reservations := t.reservations + [res]);
      t := t.(placesReservees := t.placesReservees + res.places);
      t := t.(placesDisponibles := t.placesDisponibles - res.places);
      var saved := Save(t, false);
      if saved {
        StoreKeepsValid(old(trajets), trajetId, t);
        r := BookingResponse(true, "Réservation effectuée avec succès", Some(FormatReservation(res)), Some(FormatTrajet(t)));
      } else {
        r := BookingResponse(false, BookFailed, None, None);
      }
    }

    /** cancelBooking: removes the reservation with this id held by this
        passenger, gives its seats back and saves. The save cannot fail here:
        giving seats back keeps every validator satisfied. */
    method CancelBooking(trajetId: string, reservationId: string, passagerId: int)
      returns (r: DeleteResponse)
      requires Valid()
      modifies this
      ensures Valid()
      ensures trajetId !in old(trajets) ==> r == DeleteResponse(false, TrajetNotFound) && trajets == old(trajets)
      ensures trajetId in old(trajets) && IndexOfTarget(old(trajets)[trajetId].reservations, reservationId, passagerId) == -1 ==>
        r == DeleteResponse(false, ReservationNotFound) && trajets == old(trajets)
      ensures r.success <==> (trajetId in old(trajets) &&
        exists i :: 0 <= i < |old(trajets)[trajetId].reservations| &&
                    IsTarget(old(trajets)[trajetId].reservations[i], reservationId, passagerId))
      ensures r.success ==>
        && var t := old(trajets)[trajetId];
        && var k := IndexOfTarget(t.reservations, reservationId, passagerId);
        && 0 <= k
        && var p := t.reservations[k].places;
        && trajets == old(trajets)[trajetId := t.(reservations := RemoveAt(t.reservations, k),
                                                    placesReservees := t.placesReservees - p,
                                                    placesDisponibles := t.placesDisponibles + p)]
        && r.message == "Réservation annulée avec succès"
        // the same cancellation a second time finds nothing
        && IndexOfTarget(trajets[trajetId].reservations, reservationId, passagerId) == -1
    {
      if trajetId !in trajets {
        return DeleteResponse(false, TrajetNotFound);
      }
      var t := trajets[trajetId];
      var k := IndexOfTarget(t.reservations, reservationId, passagerId);
      if k == -1 {
        return DeleteResponse(false, ReservationNotFound);
      }
      var places := t.reservations[k].places;
      CancelledStillStored(trajetId, t, k);
      RemovedTargetIsGone(t.reservations, k, reservationId, passagerId);
      t := t.(reservations := RemoveAt(t.reservations, k),
              placesReservees := t.placesReservees - places,
              placesDisponibles := t.placesDisponibles + places);
      var saved := Save(t, false);
      assert saved;
      StoreKeepsValid(old(trajets), trajetId, t);
      r := DeleteResponse(true, "Réservation annulée avec succès");
    }
  }
}
