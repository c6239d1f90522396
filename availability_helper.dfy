/** `isVenueAvailableForDates` (src/utils/availabilityHelper.ts): fetch the
    venue with its bookings and answer "available" when none overlaps the
    requested range; any failure answers "available" (fail-open). */
module AvailabilityHelper {
  import opened Wrappers
  import opened VenueTypes
  import opened DateHelper

  /** Booking `b` overlaps the requested range `[from, to]`. */
  predicate Clashes(b: BookingDates, from: Instant, to: Instant) {
    Overlap(b.dateFrom, b.dateTo, from, to)
  }

  /** `bookings.some((b) => overlap(b.dateFrom, b.dateTo, from, to))` */
  function AnyOverlap(bookings: seq<BookingDates>, from: Instant, to: Instant): (r: bool)
    ensures r <==> exists i :: 0 <= i < |bookings| && Clashes(bookings[i], from, to)
  {
    if bookings == [] then false
    else
      Clashes(bookings[0], from, to) ||
      (assert forall i :: 1 <= i < |bookings| ==> bookings[i] == bookings[1..][i - 1];
       AnyOverlap(bookings[1..], from, to))
  }

  /** The helper, with `fetchVenueById(id, { bookings: true })` as the oracle
      `fetch`. A rejected fetch and a venue without a `bookings` array (the
      `.some` call throws) both land in the `catch`. */
  function IsVenueAvailableForDates(id: string, from: Instant, to: Instant,
                                    fetch: string -> Outcome<Venue>): bool
  {
    match fetch(id)
    case Threw(_) => true
    case Done(venue) =>
      match venue.bookings
      case None => true
      case Some(bookings) => !AnyOverlap(bookings, from, to)
  }

  /** Available exactly when no booking clashes with the range; fail-open on
      a rejected fetch and on a venue without bookings. */
  lemma AvailableIffNoClash(id: string, from: Instant, to: Instant, fetch: string -> Outcome<Venue>)
    ensures fetch(id).Threw? ==> IsVenueAvailableForDates(id, from, to, fetch)
    ensures fetch(id).Done? && fetch(id).value.bookings.None? ==> IsVenueAvailableForDates(id, from, to, fetch)
    ensures fetch(id).Done? && fetch(id).value.bookings.Some? ==>
      (IsVenueAvailableForDates(id, from, to, fetch) <==>
         forall i :: 0 <= i < |fetch(id).value.bookings.value| ==>
           !Clashes(fetch(id).value.bookings.value[i], from, to))
  {
  }

  /** With no bookings the venue is available. */
  lemma NoBookingsAvailable(from: Instant, to: Instant)
    ensures !AnyOverlap([], from, to)
  {
  }

  /** Monotone: one more booking can turn "available" into "unavailable",
      never the reverse. */
  lemma {:induction false} MoreBookingsNeverFreeUp(bookings: seq<BookingDates>, b: BookingDates,
                                                   from: Instant, to: Instant)
    ensures AnyOverlap(bookings, from, to) ==> AnyOverlap(bookings + [b], from, to)
    ensures !AnyOverlap(bookings + [b], from, to) ==> !AnyOverlap(bookings, from, to)
  {
    if AnyOverlap(bookings, from, to) {
      var i :| 0 <= i < |bookings| && Clashes(bookings[i], from, to);
      assert (bookings + [b])[i] == bookings[i];
    }
  }

  /** The answer does not depend on the order of the bookings. */
  lemma {:induction false} OrderIrrelevant(xs: seq<BookingDates>, ys: seq<BookingDates>,
                                           from: Instant, to: Instant)
    requires multiset(xs) == multiset(ys)
    ensures AnyOverlap(xs, from, to) == AnyOverlap(ys, from, to)
  {
    if AnyOverlap(xs, from, to) {
      var i :| 0 <= i < |xs| && Clashes(xs[i], from, to);
      assert xs[i] in multiset(ys);
      var j :| 0 <= j < |ys| && ys[j] == xs[i];
    }
    if AnyOverlap(ys, from, to) {
      var j :| 0 <= j < |ys| && Clashes(ys[j], from, to);
      assert ys[j] in multiset(xs);
      var i :| 0 <= i < |xs| && xs[i] == ys[j];
    }
  }

  /** The conflict example: one booking `[10, 15]`; asking for `[12, 13]`
      answers unavailable, asking for `[16, 20]` answers available. */
  lemma ConflictExample(fetch: string -> Outcome<Venue>, v: Venue)
    requires v.bookings == Some([BookingDates(10, 15)])
    requires fetch("v2") == Done(v)
    ensures !IsVenueAvailableForDates("v2", 12, 13, fetch)
    ensures IsVenueAvailableForDates("v2", 16, 20, fetch)
  {
  }
}
