/** The filter of `getAllTrajets`: the five optional filter fields, the
    MongoDB query built from them field by field, and what that query
    selects. Times are milliseconds since the epoch; days are UTC days. */
module Query {
  import opened Wrappers
  import opened Text
  import opened Schema

  /** The filters as the service receives them. A falsy field (the empty
      string, `undefined`, `NaN`, or the number 0) means "no constraint",
      because each one is tested with a plain `if (filters.x)`. */
  datatype Filters = Filters(
    depart: string,
    destination: string,
    dateDepart: Option<int>,
    placesMinimum: Option<int>,
    prixMax: Option<real>)

  const NoFilters: Filters := Filters("", "", None, None, None)

  /** A MongoDB query on ride documents: each present part is one condition. */
  datatype MongoQuery = MongoQuery(
    departPattern: Option<string>,
    destinationPattern: Option<string>,
    dateFrom: Option<int>,
    dateTo: Option<int>,
    minPlaces: Option<int>,
    maxPrix: Option<real>)

  const EmptyQuery: MongoQuery := MongoQuery(None, None, None, None, None, None)

  predicate Truthy(n: Option<int>)
  {
    n.Some? && n.value != 0
  }

  predicate TruthyReal(x: Option<real>)
  {
    x.Some? && x.value != 0.0
  }

  const DayMs: int := 86_400_000

  function DayOf(time: int): int
  {
    time / DayMs
  }

  /** `date.setHours(0, 0, 0, 0)`. */
  function StartOfDay(time: int): int
  {
    DayOf(time) * DayMs
  }

  /** `date.setHours(23, 59, 59, 999)`. */
  function EndOfDay(time: int): int
  {
    StartOfDay(time) + DayMs - 1
  }

  predicate SameDay(a: int, b: int)
  {
    DayOf(a) == DayOf(b)
  }

  /** The window `[StartOfDay(d), EndOfDay(d)]` is exactly the day of `d`. */
  lemma DayWindow(d: int, time: int)
    ensures StartOfDay(d) <= time <= EndOfDay(d) <==> SameDay(time, d)
  {
    var k := DayOf(d);
    var j := DayOf(time);
    assert time == j * DayMs + time % DayMs && 0 <= time % DayMs < DayMs;
    if j < k {
      assert j * DayMs <= (k - 1) * DayMs;
    } else if j > k {
      assert j * DayMs >= (k + 1) * DayMs;
    }
  }

  /** Which documents a query selects. */
  predicate Matches(q: MongoQuery, t: Trajet)
  {
    && (q.departPattern.Some? ==> ContainsIgnoringCase(t.depart, q.departPattern.value))
    && (q.destinationPattern.Some? ==> ContainsIgnoringCase(t.destination, q.destinationPattern.value))
    && (q.dateFrom.Some? ==> t.dateDepart >= q.dateFrom.value)
    && (q.dateTo.Some? ==> t.dateDepart <= q.dateTo.value)
    && (q.minPlaces.Some? ==> t.placesDisponibles >= q.minPlaces.value)
    && (q.maxPrix.Some? ==> t.prix <= q.maxPrix.value)
  }

  /** The conditions a ride must meet whatever the date filter says. */
  predicate MeetsOtherFilters(f: Filters, t: Trajet)
  {
    && (f.depart != "" ==> ContainsIgnoringCase(t.depart, f.depart))
    && (f.destination != "" ==> ContainsIgnoringCase(t.destination, f.destination))
    && (Truthy(f.placesMinimum) ==> t.placesDisponibles >= f.placesMinimum.value)
    && (TruthyReal(f.prixMax) ==> t.prix <= f.prixMax.value)
  }

  /** What the listing promises: rides that have not left yet, on the
      requested day when a date is given, meeting every truthy filter. */
  predicate Admits(f: Filters, now: int, t: Trajet)
  {
    && t.dateDepart >= now
    && (f.dateDepart.Some? ==> SameDay(t.dateDepart, f.dateDepart.value))
    && MeetsOtherFilters(f, t)
  }

  /** What the query as written selects: the day window's lower bound is
      replaced by `now`, its upper bound kept. */
  predicate AdmitsAsWritten(f: Filters, now: int, t: Trajet)
  {
    && t.dateDepart >= now
    && (f.dateDepart.Some? ==> t.dateDepart <= EndOfDay(f.dateDepart.value))
    && MeetsOtherFilters(f, t)
  }

  /** The query built by getAllTrajets as written: the date window's `$gte`
      is overwritten by "now" when the future-only condition is merged in. */
  method BuildQueryAsWritten(f: Filters, now: int) returns (q: MongoQuery)
    ensures q.dateFrom == Some(now)
    ensures forall t :: Matches(q, t) <==> AdmitsAsWritten(f, now, t)
  {
    q := EmptyQuery;
    if f.depart != "" {
      q := q.(departPattern := Some(f.depart));
    }
    if f.destination != "" {
      q := q.(destinationPattern := Some(f.destination));
    }
    if f.dateDepart.Some? {
      var d := f.dateDepart.value;
      q := q.(dateFrom := Some(StartOfDay(d)), dateTo := Some(EndOfDay(d)));
    }
    if Truthy(f.placesMinimum) {
      q := q.(minPlaces := f.placesMinimum);
    }
    if TruthyReal(f.prixMax) {
      q := q.(maxPrix := f.prixMax);
    }
    q := q.(dateFrom := Some(now));
  }

  /** A ride at midnight of day 0, asked for with a filter on day 1 while it
      is still midnight of day 0: the query as written returns it although it
      is not on the requested day. */
  lemma EarlierDayLeaksThroughDateFilter()
    ensures var f := NoFilters.(dateDepart := Some(DayMs));
            var t := Trajet("r", "Tunis", "Sousse", 7, "Ali", 0, 3, 0, 10.0, None, 0, []);
            AdmitsAsWritten(f, 0, t) && !SameDay(t.dateDepart, DayMs) && !Admits(f, 0, t)
  {
    assert DayOf(0) == 0 && DayOf(DayMs) == 1;
  }

  /** The query as intended: the day window's lower bound is the later of
      the start of the day and now. This is the query the listing uses. */
  method BuildQuery(f: Filters, now: int) returns (q: MongoQuery)
    ensures forall t :: Matches(q, t) <==> Admits(f, now, t)
  {
    q := EmptyQuery;
    if f.depart != "" {
      q := q.(departPattern := Some(f.depart));
    }
    if f.destination != "" {
      q := q.(destinationPattern := Some(f.destination));
    }
    if f.dateDepart.Some? {
      var d := f.dateDepart.value;
      q := q.(dateFrom := Some(StartOfDay(d)), dateTo := Some(EndOfDay(d)));
      forall t: Trajet ensures StartOfDay(d) <= t.dateDepart <= EndOfDay(d) <==> SameDay(t.dateDepart, d) {
        DayWindow(d, t.dateDepart);
      }
    }
    if Truthy(f.placesMinimum) {
      q := q.(minPlaces := f.placesMinimum);
    }
    if TruthyReal(f.prixMax) {
      q := q.(maxPrix := f.prixMax);
    }
    var from := if q.dateFrom.Some? && q.dateFrom.value > now then q.dateFrom.value else now;
    q := q.(dateFrom := Some(from));
  }

  /** The two queries differ only on rides of earlier days: what the
      intended query selects, the written one selects as well. */
  lemma AdmitsWithinAsWritten(f: Filters, now: int, t: Trajet)
    requires Admits(f, now, t)
    ensures AdmitsAsWritten(f, now, t)
  {
    if f.dateDepart.Some? {
      DayWindow(f.dateDepart.value, t.dateDepart);
    }
  }

  /** A `placesMinimum` or `prixMax` of 0 is no constraint at all. */
  lemma ZeroBoundsAreNoConstraint(f: Filters, now: int, t: Trajet)
    ensures Admits(f.(placesMinimum := Some(0), prixMax := Some(0.0)), now, t)
        <==> Admits(f.(placesMinimum := None, prixMax := None), now, t)
  {
  }

  /** Without filters, every ride that has not left yet is listed. */
  lemma NoFiltersListsFuture(now: int, t: Trajet)
    ensures Admits(NoFilters, now, t) <==> t.dateDepart >= now
  {
  }
}
