/** The seat ledger of one ride: `placesReservees` is the sum of the
    reservations' `places`, each passenger holds at most one reservation and
    the driver holds none. The ride service keeps these three facts on every
    ride it stores; the lemmas here are the steps of that argument for a
    booking (push + counter updates) and for a cancellation (splice + counter
    updates). */
module Seats {
  import opened Wrappers
  import opened Schema

  function SumPlaces(rs: seq<Reservation>): int
  {
    if rs == [] then 0 else rs[0].places + SumPlaces(rs[1..])
  }

  predicate OnePerPassenger(rs: seq<Reservation>)
  {
    forall i, j :: 0 <= i < j < |rs| ==> rs[i].passagerId != rs[j].passagerId
  }

  predicate NoSelfBooking(t: Trajet)
  {
    forall i :: 0 <= i < |t.reservations| ==> t.reservations[i].passagerId != t.conducteurId
  }

  predicate Ledger(t: Trajet)
  {
    && t.placesReservees == SumPlaces(t.reservations)
    && OnePerPassenger(t.reservations)
    && NoSelfBooking(t)
  }

  /** `reservations.find(r => r.passagerId === passagerId)`: the first
      reservation of the passenger. */
  function FindByPassenger(rs: seq<Reservation>, passagerId: int): (r: Option<Reservation>)
    ensures r.None? <==> forall i :: 0 <= i < |rs| ==> rs[i].passagerId != passagerId
    ensures r.Some? ==> r.value in rs && r.value.passagerId == passagerId
    ensures r.Some? ==> exists k :: 0 <= k < |rs| && rs[k] == r.value &&
                                   forall j :: 0 <= j < k ==> rs[j].passagerId != passagerId
  {
    if rs == [] then None
    else if rs[0].passagerId == passagerId then Some(rs[0])
    else FindByPassenger(rs[1..], passagerId)
  }

  /** The reservation a cancellation is aimed at: same `_id` and same passenger. */
  predicate IsTarget(r: Reservation, reservationId: string, passagerId: int)
  {
    r.id == reservationId && r.passagerId == passagerId
  }

  /** `reservations.findIndex(...)`: the first target's index, or -1. */
  function IndexOfTarget(rs: seq<Reservation>, reservationId: string, passagerId: int): (k: int)
    ensures -1 <= k < |rs|
    ensures k == -1 <==> forall j :: 0 <= j < |rs| ==> !IsTarget(rs[j], reservationId, passagerId)
    ensures k >= 0 ==> IsTarget(rs[k], reservationId, passagerId)
    ensures k >= 0 ==> forall j :: 0 <= j < k ==> !IsTarget(rs[j], reservationId, passagerId)
  {
    if rs == [] then -1
    else if IsTarget(rs[0], reservationId, passagerId) then 0
    else
      var k := IndexOfTarget(rs[1..], reservationId, passagerId);
      if k == -1 then -1 else k + 1
  }

  /** `reservations.splice(k, 1)`. */
  function RemoveAt(rs: seq<Reservation>, k: nat): (r: seq<Reservation>)
    requires k < |rs|
    ensures |r| == |rs| - 1
    ensures forall j :: 0 <= j < |r| ==> r[j] == if j < k then rs[j] else rs[j + 1]
  {
    rs[..k] + rs[k + 1..]
  }

  lemma {:induction false} SumAppend(rs: seq<Reservation>, r: Reservation)
    ensures SumPlaces(rs + [r]) == SumPlaces(rs) + r.places
  {
    if rs != [] {
      assert (rs + [r])[1..] == rs[1..] + [r];
      SumAppend(rs[1..], r);
    }
  }

  lemma {:induction false} SumRemoveAt(rs: seq<Reservation>, k: nat)
    requires k < |rs|
    ensures SumPlaces(RemoveAt(rs, k)) == SumPlaces(rs) - rs[k].places
  {
    if k == 0 {
      assert RemoveAt(rs, 0) == rs[1..];
    } else {
      assert RemoveAt(rs, k) == [rs[0]] + RemoveAt(rs[1..], k - 1);
      SumRemoveAt(rs[1..], k - 1);
    }
  }

  /** Booking (`reservations.push(r)`, `placesReservees += r.places`,
      `placesDisponibles -= r.places`) keeps the ledger when the passenger is
      neither the driver nor already booked, and moves seats from one counter
      to the other without changing their total. */
  lemma BookingKeepsLedger(t: Trajet, r: Reservation)
    requires Ledger(t)
    requires r.passagerId != t.conducteurId
    requires FindByPassenger(t.reservations, r.passagerId).None?
    ensures var b := t.(reservations := t.reservations + [r],
                        placesReservees := t.placesReservees + r.places,
                        placesDisponibles := t.placesDisponibles - r.places);
            Ledger(b) && b.placesDisponibles + b.placesReservees == t.placesDisponibles + t.placesReservees
  {
    SumAppend(t.reservations, r);
  }

  /** Cancelling (`splice(k, 1)`, `placesReservees -= places`,
      `placesDisponibles += places`) keeps the ledger and the seat total. */
  lemma CancelKeepsLedger(t: Trajet, k: nat)
    requires Ledger(t) && k < |t.reservations|
    ensures var p := t.reservations[k].places;
            var c := t.(reservations := RemoveAt(t.reservations, k),
                        placesReservees := t.placesReservees - p,
                        placesDisponibles := t.placesDisponibles + p);
            Ledger(c) && c.placesDisponibles + c.placesReservees == t.placesDisponibles + t.placesReservees
  {
    SumRemoveAt(t.reservations, k);
  }

  /** Once a passenger's reservation is removed, no reservation of that
      passenger is left, so the same cancellation finds nothing a second time. */
  lemma RemovedTargetIsGone(rs: seq<Reservation>, k: nat, reservationId: string, passagerId: int)
    requires OnePerPassenger(rs) && k < |rs| && IsTarget(rs[k], reservationId, passagerId)
    ensures IndexOfTarget(RemoveAt(rs, k), reservationId, passagerId) == -1
    ensures FindByPassenger(RemoveAt(rs, k), passagerId).None?
  {
    var r := RemoveAt(rs, k);
    forall j | 0 <= j < |r| ensures r[j].passagerId != passagerId {
      if j < k { assert r[j] == rs[j]; } else { assert r[j] == rs[j + 1]; }
    }
  }
}
