/** The manage-venues page (src/pages/venues/ManageVenues.tsx): loading the
    manager's own venues, the upcoming-bookings list under each card, and
    the list update after a delete. `fetchVenuesByProfile`, `deleteVenue`
    and the browser's confirm dialog are parameters. Every update is a new
    page state. */
module ManageVenues {
  import opened Wrappers
  import opened Seqs
  import opened VenueTypes

  /** What the page shows: the venues, the spinner, the error line. */
  datatype PageState = PageState(venues: seq<Venue>, loading: bool, error: Option<string>)

  const InitialState: PageState := PageState([], true, None)

  /** The load effect: nothing without a profile name; otherwise the
      fetched venues replace the list, or the error line shows the failure's
      message, or "Failed to load venues"; the spinner stops either way. */
  function Load(s: PageState, profileName: string, fetched: Outcome<seq<Venue>>): (r: PageState)
    ensures profileName == "" ==> r == s
    ensures profileName != "" ==> !r.loading
    ensures profileName != "" && fetched.Done? ==> r.venues == fetched.value && r.error == s.error
    ensures profileName != "" && fetched.Threw? ==>
              r.venues == s.venues && r.error.Some? &&
              r.error.value == (if fetched.message.Some? then fetched.message.value else "Failed to load venues")
  {
    if profileName == "" then s
    else if fetched.Done? then s.(venues := fetched.value, loading := false)
    else s.(error := Some(MessageOr(fetched, "Failed to load venues")), loading := false)
  }

  /** A failed first load leaves the list empty. */
  lemma FailedLoadShowsNoVenues(profileName: string, message: Option<string>)
    requires profileName != ""
    ensures Load(InitialState, profileName, Threw(message)).venues == []
    ensures Load(InitialState, profileName, Threw(message)).error.Some?
  {
  }

  /** A booking ends strictly after `now`. */
  predicate EndsAfter(now: Instant, b: BookingDates) {
    b.dateTo > now
  }

  /** The start of a booking, as the sort's comparator key. */
  function Start(b: BookingDates): real {
    b.dateFrom as real
  }

  /** The upcoming bookings under a card: those that end after `now`,
      ordered by start. */
  function Upcoming(bookings: seq<BookingDates>, now: Instant): seq<BookingDates> {
    SortBy(Filter(b => EndsAfter(now, b), bookings), Start)
  }

  /** Every listed booking ends after `now`, each booking that does is
      listed, as often as it occurs among the ones kept, and the list
      ascends by start. */
  lemma UpcomingSpec(bookings: seq<BookingDates>, now: Instant)
    ensures forall i :: 0 <= i < |Upcoming(bookings, now)| ==> Upcoming(bookings, now)[i].dateTo > now
    ensures forall i, j :: 0 <= i < j < |Upcoming(bookings, now)| ==>
              Upcoming(bookings, now)[i].dateFrom <= Upcoming(bookings, now)[j].dateFrom
    ensures multiset(Upcoming(bookings, now)) == multiset(Filter(b => EndsAfter(now, b), bookings))
    ensures forall b :: b in bookings ==> (b in Upcoming(bookings, now) <==> b.dateTo > now)
  {
    var kept := Filter(b => EndsAfter(now, b), bookings);
    var r := Upcoming(bookings, now);
    forall i | 0 <= i < |r| ensures r[i].dateTo > now {
      assert r[i] in multiset(r);
      assert r[i] in multiset(kept);
      var k :| 0 <= k < |kept| && kept[k] == r[i];
    }
    forall i, j | 0 <= i < j < |r| ensures r[i].dateFrom <= r[j].dateFrom {
      assert Start(r[i]) <= Start(r[j]);
    }
    forall b | b in bookings ensures b in r <==> b.dateTo > now {
      if b.dateTo > now {
        assert EndsAfter(now, b);
        assert b in kept;
        assert b in multiset(kept);
        assert b in multiset(r);
      }
      if b in r {
        var i :| 0 <= i < |r| && r[i] == b;
      }
    }
  }

  /** Past bookings do not change the list: adding one leaves it as it
      was. */
  lemma PastBookingsIgnored(a: seq<BookingDates>, past: BookingDates, c: seq<BookingDates>, now: Instant)
    requires past.dateTo <= now
    ensures multiset(Upcoming(a + [past] + c, now)) == multiset(Upcoming(a + c, now))
  {
    var p := b => EndsAfter(now, b);
    FilterAppend(p, a + [past], c);
    FilterAppend(p, a, [past]);
    FilterAppend(p, a, c);
    assert Filter(p, [past]) == [];
  }

  /** The card shows the upcoming block only when the venue has bookings
      at all. */
  function UpcomingBlock(v: Venue, now: Instant): (r: Option<seq<BookingDates>>)
    ensures r.Some? <==> v.bookings.Some? && |v.bookings.value| > 0
    ensures r.Some? ==> r.value == Upcoming(v.bookings.value, now)
  {
    if v.bookings.Some? && |v.bookings.value| > 0 then Some(Upcoming(v.bookings.value, now)) else None
  }

  predicate OtherId(id: string, v: Venue) {
    v.id != id
  }

  /** The venues left after deleting `id`: all the others, in order. */
  function Without(venues: seq<Venue>, id: string): seq<Venue> {
    Filter(v => OtherId(id, v), venues)
  }

  /** `handleDelete(id)`: a declined confirm does nothing and no request is
      made; a successful delete drops the venues with that id; a failed one
      keeps the list and alerts its message, or "Could not delete venue". */
  function HandleDelete(venues: seq<Venue>, id: string, confirmed: bool, deleted: Outcome<()>)
    : (r: (seq<Venue>, Option<string>))
    ensures !confirmed ==> r == (venues, None)
    ensures confirmed && deleted.Done? ==> r == (Without(venues, id), None)
    ensures confirmed && deleted.Threw? ==>
              r.0 == venues && r.1 == Some(MessageOr(deleted, "Could not delete venue"))
  {
    if !confirmed then (venues, None)
    else if deleted.Done? then (Without(venues, id), None)
    else (venues, Some(MessageOr(deleted, "Could not delete venue")))
  }

  /** The list after a delete holds exactly the venues with another id, and
      keeps every one of them. */
  lemma WithoutSpec(venues: seq<Venue>, id: string)
    ensures forall v :: v in Without(venues, id) <==> v in venues && v.id != id
    ensures |Without(venues, id)| <= |venues|
  {
  }

  /** Deleting keeps the survivors' order: it works piece by piece, and a
      piece without that id is kept whole. */
  lemma WithoutKeepsOrder(a: seq<Venue>, b: seq<Venue>, id: string)
    ensures Without(a + b, id) == Without(a, id) + Without(b, id)
    ensures (forall i :: 0 <= i < |a| ==> a[i].id != id) ==> Without(a, id) == a
  {
    FilterAppend(v => OtherId(id, v), a, b);
    if forall i :: 0 <= i < |a| ==> a[i].id != id {
      FilterAll(v => OtherId(id, v), a);
    }
  }

  /** A declined confirm is answered without the server: any two outcomes
      give the same page. */
  lemma DeclinedDeleteIgnoresServer(venues: seq<Venue>, id: string, d1: Outcome<()>, d2: Outcome<()>)
    ensures HandleDelete(venues, id, false, d1) == HandleDelete(venues, id, false, d2)
  {
  }
}
