/** One ride through its life on an empty store, driven only by the
    contracts of the ride service: a driver offers 3 seats, passenger A books
    2, passenger B's request for 2 is refused with the 1 seat left quoted, A
    cancels and gets the seats back, and the driver deletes the ride. */
module Scenario {
  import opened Wrappers
  import opened Schema
  import opened Views
  import opened Seats
  import opened Service

  const Driver := 1
  const PassengerA := 2
  const PassengerB := 3

  /** The ride as offered: 3 free seats, none reserved. */
  const Offered := Trajet("ride", "Paris", "Lyon", Driver, "Driver", 1000, 3, 0, 20.0, None, 0, [])

  /** A's reservation of 2 seats. */
  const BookingA := Reservation("booking-a", PassengerA, "A", 2, 0)

  /** The ride once A has booked. */
  const BookedByA := Offered.(reservations := [BookingA], placesReservees := 2, placesDisponibles := 1)

  /** The driver offers the ride on an empty store. */
  method Offer() returns (service: TrajetService, created: TrajetResponse)
    ensures fresh(service) && service.Valid() && service.trajets == map["ride" := Offered]
    ensures created.success && created.trajet == Some(FormatTrajet(Offered))
  {
    service := new TrajetService();
    var fields := TrajetFields("Paris", "Lyon", Some(Driver), "Driver", Some(1000), Some(3), Some(20.0), None);
    created := service.CreateTrajet(fields, "ride", 0, None);
  }

  /** A books 2 of the 3 seats. */
  method BookA(service: TrajetService) returns (first: BookingResponse)
    requires service.Valid() && service.trajets == map["ride" := Offered]
    modifies service
    ensures service.Valid() && service.trajets == map["ride" := BookedByA]
    ensures first.success && first.trajet == Some(FormatTrajet(BookedByA))
  {
    assert BookingSaveable(Offered, Booking(PassengerA, "A", 2), "booking-a");
    first := service.BookTrajet("ride", Booking(PassengerA, "A", 2), "booking-a", 0);
    assert [] + [BookingA] == [BookingA];
  }

  /** B asks for 2 seats when 1 is left. */
  method BookB(service: TrajetService) returns (second: BookingResponse)
    requires service.Valid() && service.trajets == map["ride" := BookedByA]
    modifies service
    ensures service.Valid() && service.trajets == map["ride" := BookedByA]
    ensures !second.success && second.message == "Il n'y a que 1 places disponibles"
  {
    second := service.BookTrajet("ride", Booking(PassengerB, "B", 2), "booking-b", 0);
    assert Text.IntToString(1) == "1";
  }

  /** A cancels, which gives the ride back as offered. */
  method CancelA(service: TrajetService) returns (cancel: DeleteResponse)
    requires service.Valid() && service.trajets == map["ride" := BookedByA]
    modifies service
    ensures service.Valid() && service.trajets == map["ride" := Offered]
    ensures cancel.success
  {
    assert IsTarget(BookedByA.reservations[0], "booking-a", PassengerA);
    cancel := service.CancelBooking("ride", "booking-a", PassengerA);
    assert RemoveAt(BookedByA.reservations, 0) == [];
  }

  method SeatScenario()
    returns (created: TrajetResponse, first: BookingResponse, second: BookingResponse,
             cancel: DeleteResponse, freeAfterCancel: int, removal: DeleteResponse)
    ensures created.success && created.trajet.Some? && created.trajet.value.placesDisponibles == 3
    ensures first.success && first.trajet.Some? && first.trajet.value.placesDisponibles == 1
    ensures first.trajet.value.placesReservees == 2
    ensures !second.success && second.message == "Il n'y a que 1 places disponibles"
    ensures cancel.success && freeAfterCancel == 3
    ensures removal.success
  {
    var service;
    service, created := Offer();
    first := BookA(service);
    second := BookB(service);
    cancel := CancelA(service);
    freeAfterCancel := service.trajets["ride"].placesDisponibles;
    removal := service.DeleteTrajet("ride");
  }
}
