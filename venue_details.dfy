/** The venue page (src/pages/venues/VenueDetails.tsx): the booked and
    own ranges loaded for the calendar, per-day blocking in the date
    pickers, the reserve action with its optimistic update, the guest
    controls and the host's other venues. `createBooking`,
    `fetchVenueById`, `fetchBookingsForVenue` and `fetchVenuesByProfile`
    are outcomes handed in by the caller. */
module VenueDetails {
  import opened Wrappers
  import opened VenueTypes
  import opened Seqs
  import opened DateHelper

  /** `{ from, to }`: a closed range of days on the calendar. */
  datatype Range = Range(from: Instant, to: Instant)

  /** `RawBooking`: the dates and, when present, the customer's name. */
  datatype RawBooking = RawBooking(dateFrom: Instant, dateTo: Instant, customer: Option<string>)

  /** The body sent to `createBooking`. */
  datatype BookingRequest = BookingRequest(venueId: string, dateFrom: Instant, dateTo: Instant, guests: int)

  function RangeOf(b: RawBooking): Range {
    Range(b.dateFrom, b.dateTo)
  }

  /** `b.customer?.name === profileName`: a booking without a customer is
      nobody's. */
  predicate IsMine(b: RawBooking, profileName: string) {
    b.customer == Some(profileName)
  }

  /** The `all` list: one range per booking, in order. */
  function Ranges(bs: seq<RawBooking>): (r: seq<Range>)
    ensures |r| == |bs|
    ensures forall k :: 0 <= k < |bs| ==> r[k] == RangeOf(bs[k])
  {
    if bs == [] then []
    else Ranges(bs[..|bs| - 1]) + [RangeOf(bs[|bs| - 1])]
  }

  /** The `mine` list: the ranges of the bookings made by `profileName`, in
      order. */
  function Mine(bs: seq<RawBooking>, profileName: string): seq<Range> {
    if bs == [] then []
    else
      Mine(bs[..|bs| - 1], profileName)
        + (if IsMine(bs[|bs| - 1], profileName) then [RangeOf(bs[|bs| - 1])] else [])
  }

  lemma RangesAppend(a: seq<RawBooking>, b: seq<RawBooking>)
    ensures Ranges(a + b) == Ranges(a) + Ranges(b)
  {
  }

  /** `mine` is the `all` list of the customer's own bookings: the bookings
      filtered by customer name, then mapped to ranges. */
  lemma {:induction false} MineIsFilteredRanges(bs: seq<RawBooking>, profileName: string)
    ensures Mine(bs, profileName) == Ranges(Filter((b: RawBooking) => IsMine(b, profileName), bs))
    decreases |bs|
  {
    if bs != [] {
      var front, last := bs[..|bs| - 1], bs[|bs| - 1];
      var p := (b: RawBooking) => IsMine(b, profileName);
      assert bs == front + [last];
      MineIsFilteredRanges(front, profileName);
      FilterAppend(p, front, [last]);
      assert Filter(p, [last]) == if p(last) then [last] else [];
      RangesAppend(Filter(p, front), Filter(p, [last]));
    }
  }

  /** Every own range is also a booked range, counted no more often. */
  lemma {:induction false} MineWithinAll(bs: seq<RawBooking>, profileName: string)
    ensures multiset(Mine(bs, profileName)) <= multiset(Ranges(bs))
    decreases |bs|
  {
    if bs != [] {
      MineWithinAll(bs[..|bs| - 1], profileName);
    }
  }

  /** The `forEach` that loads the calendar: every booking is pushed onto
      `all`, and the customer's own ones onto `mine` as well. */
  method SplitBookings(bookings: seq<RawBooking>, profileName: string)
    returns (all: seq<Range>, mine: seq<Range>)
    ensures all == Ranges(bookings)
    ensures mine == Mine(bookings, profileName)
  {
    all, mine := [], [];
    for i := 0 to |bookings|
      invariant all == Ranges(bookings[..i])
      invariant mine == Mine(bookings[..i], profileName)
    {
      assert bookings[..i + 1][..i] == bookings[..i];
      var r := Range(bookings[i].dateFrom, bookings[i].dateTo);
      all := all + [r];
      if bookings[i].customer == Some(profileName) {
        mine := mine + [r];
      }
    }
    assert bookings[..|bookings|] == bookings;
  }

  /** `isDayBooked(d)`: some booked range holds day `d`, both ends
      included. */
  function IsDayBooked(ranges: seq<Range>, d: Instant): (r: bool)
    ensures r <==> exists i :: 0 <= i < |ranges| && Within(d, ranges[i].from, ranges[i].to)
  {
    if ranges == [] then false
    else
      Within(d, ranges[0].from, ranges[0].to) ||
      (assert forall i :: 1 <= i < |ranges| ==> ranges[i] == ranges[1..][i - 1];
       IsDayBooked(ranges[1..], d))
  }

  /** The check-in picker offers every day from `today` on (its
      `minDate`) that is not booked. */
  predicate CheckInSelectable(ranges: seq<Range>, today: Instant, d: Instant) {
    d >= today && !IsDayBooked(ranges, d)
  }

  /** The check-out picker offers a day from the check-in on, or from
      `today` while none is chosen (its `minDate`), that is not booked and,
      once a check-in is chosen, lies strictly after it. */
  predicate CheckOutSelectable(ranges: seq<Range>, today: Instant, checkIn: Option<Instant>, d: Instant) {
    d >= (if checkIn.Some? then checkIn.value else today) &&
    !IsDayBooked(ranges, d) && (checkIn.None? || d > checkIn.value)
  }

  /** The first and the last day of a booking are both blocked, and the day
      after it is free. */
  lemma BookedEndsBlocked(from: Instant, to: Instant)
    requires from <= to
    ensures IsDayBooked([Range(from, to)], from)
    ensures IsDayBooked([Range(from, to)], to)
    ensures !IsDayBooked([Range(from, to)], to + 1)
  {
    assert Within(from, [Range(from, to)][0].from, [Range(from, to)][0].to);
    assert Within(to, [Range(from, to)][0].from, [Range(from, to)][0].to);
  }

  /** The pickers test single days only: with days 10 to 12 booked, check-in
      5 and check-out 15 are both offered, although the stay they make
      overlaps the booking. */
  lemma SpanningStayAccepted()
    ensures CheckInSelectable([Range(10, 12)], 0, 5)
    ensures CheckOutSelectable([Range(10, 12)], 0, Some(5), 15)
    ensures Overlap(5, 15, 10, 12)
  {
  }

  /** The guest ceiling the plus button respects: `maxGuests`, but never
      below the starting count of one; that is, the larger of the two. */
  function GuestCeiling(maxGuests: int): (c: int)
    ensures c >= 1 && c >= maxGuests
    ensures c == 1 || c == maxGuests
  {
    if maxGuests > 1 then maxGuests else 1
  }

  class VenueDetailsPage {
    /** The route parameter. */
    var id: Option<string>
    /** The signed-in user, from the auth context. */
    var profileName: string
    var token: string
    var venue: Option<Venue>
    var hostVenues: seq<Venue>
    var bookedRanges: seq<Range>
    var myRanges: seq<Range>
    var loading: bool
    var checkIn: Option<Instant>
    var checkOut: Option<Instant>
    var guests: int
    var saving: bool
    var success: bool
    var error: Option<string>
    /** The bodies passed to `createBooking`, in call order. */
    var requests: seq<BookingRequest>

    predicate Valid()
      reads this`guests
    {
      guests >= 1
    }

    constructor (id: Option<string>, profileName: string, token: string)
      ensures Valid()
      ensures this.id == id && this.profileName == profileName && this.token == token
      ensures venue == None && hostVenues == [] && bookedRanges == [] && myRanges == [] && loading
      ensures checkIn == None && checkOut == None && guests == 1
      ensures !saving && !success && error == None && requests == []
    {
      this.id, this.profileName, this.token := id, profileName, token;
      venue, hostVenues, bookedRanges, myRanges, loading := None, [], [], [], true;
      checkIn, checkOut, guests := None, None, 1;
      saving, success, error, requests := false, false, None, [];
    }

    /** The load effect. Nothing happens without an id and a token. When
        both requests succeed and the page is still mounted, the venue and
        the booked and own ranges are stored. A rejected request leaves
        them as they were; a cancelled load leaves the page loading. */
    method Load(vData: Outcome<Venue>, bookings: Outcome<seq<RawBooking>>, cancelled: bool)
      modifies this`venue, this`bookedRanges, this`myRanges, this`loading
      ensures !Truthy(id) || token == "" ==>
        venue == old(venue) && bookedRanges == old(bookedRanges) && myRanges == old(myRanges)
        && loading == old(loading)
      ensures Truthy(id) && token != "" && vData.Done? && bookings.Done? && !cancelled ==>
        && venue == Some(vData.value)
        && bookedRanges == Ranges(bookings.value) && myRanges == Mine(bookings.value, profileName)
        && !loading
      ensures Truthy(id) && token != "" && (vData.Threw? || bookings.Threw?) ==>
        venue == old(venue) && bookedRanges == old(bookedRanges) && myRanges == old(myRanges)
        && loading == cancelled
      ensures Truthy(id) && token != "" && vData.Done? && bookings.Done? && cancelled ==>
        venue == old(venue) && bookedRanges == old(bookedRanges) && myRanges == old(myRanges)
        && loading
    {
      if !Truthy(id) || token == "" {
        return;
      }
      loading := true;
      if vData.Threw? || bookings.Threw? {
        loading := cancelled;
        return;
      }
      if cancelled {
        return;
      }
      venue := Some(vData.value);
      var all, mine := SplitBookings(bookings.value, profileName);
      bookedRanges, myRanges := all, mine;
      loading := false;
    }

    /** The host effect: with an owner name and a token, the owner's venues
        other than this one; a failure is swallowed. */
    method LoadHostVenues(others: Outcome<seq<Venue>>)
      modifies this`hostVenues
      ensures venue.Some? && venue.value.owner.Some? && venue.value.owner.value.name != ""
              && token != "" && others.Done? ==>
        hostVenues == OtherVenues(others.value, venue.value.id)
      ensures !(venue.Some? && venue.value.owner.Some? && venue.value.owner.value.name != ""
                && token != "" && others.Done?) ==>
        hostVenues == old(hostVenues)
    {
      if venue.None? || venue.value.owner.None? || venue.value.owner.value.name == "" || token == "" {
        return;
      }
      if others.Done? {
        hostVenues := OtherVenues(others.value, venue.value.id);
      }
    }

    /** `handleReserve`. Without an id, both dates and a token nothing
        happens. Otherwise one booking request is sent; on success the new
        range is appended to both lists, the dates are cleared and guests go
        back to one; on failure the error is the thrown message or "Booking
        failed" and the ranges, dates and guests are kept. */
    method HandleReserve(created: Outcome<()>)
      requires Valid()
      modifies this`bookedRanges, this`myRanges, this`checkIn, this`checkOut, this`guests,
               this`saving, this`success, this`error, this`requests
      ensures Valid()
      ensures !Truthy(old(id)) || old(checkIn).None? || old(checkOut).None? || token == "" ==>
        && checkIn == old(checkIn) && checkOut == old(checkOut) && guests == old(guests)
        && bookedRanges == old(bookedRanges) && myRanges == old(myRanges)
        && saving == old(saving) && success == old(success) && error == old(error)
        && requests == old(requests)
      ensures Truthy(old(id)) && old(checkIn).Some? && old(checkOut).Some? && token != "" ==>
        && requests == old(requests) + [BookingRequest(id.value, old(checkIn).value, old(checkOut).value, old(guests))]
        && !saving
        && success == created.Done?
      ensures Truthy(old(id)) && old(checkIn).Some? && old(checkOut).Some? && token != "" && created.Done? ==>
        && bookedRanges == old(bookedRanges) + [Range(old(checkIn).value, old(checkOut).value)]
        && myRanges == old(myRanges) + [Range(old(checkIn).value, old(checkOut).value)]
        && checkIn == None && checkOut == None && guests == 1 && error == None
      ensures Truthy(old(id)) && old(checkIn).Some? && old(checkOut).Some? && token != "" && created.Threw? ==>
        && bookedRanges == old(bookedRanges) && myRanges == old(myRanges)
        && checkIn == old(checkIn) && checkOut == old(checkOut) && guests == old(guests)
        && error == Some(MessageOr(created, "Booking failed"))
    {
      if !Truthy(id) || checkIn.None? || checkOut.None? || token == "" {
        return;
      }
      saving := true;
      error := None;
      success := false;
      requests := requests + [BookingRequest(id.value, checkIn.value, checkOut.value, guests)];
      if created.Done? {
        var optimistic := Range(checkIn.value, checkOut.value);
        bookedRanges := bookedRanges + [optimistic];
        myRanges := myRanges + [optimistic];
        success := true;
        checkIn, checkOut := None, None;
        guests := 1;
      } else {
        error := Some(MessageOr(created, "Booking failed"));
      }
      saving := false;
    }

    /** The refresh after a successful booking: the ranges are rebuilt from
        the fresh list, as on load. */
    method ApplyRefresh(latest: seq<RawBooking>)
      modifies this`bookedRanges, this`myRanges
      ensures bookedRanges == Ranges(latest) && myRanges == Mine(latest, profileName)
    {
      var all, mine := SplitBookings(latest, profileName);
      bookedRanges, myRanges := all, mine;
    }

    /** The check-in picker: picking a day at or after the current check-out
        clears the check-out. */
    method SetCheckIn(d: Option<Instant>)
      modifies this`checkIn, this`checkOut
      ensures checkIn == d
      ensures old(checkOut).Some? && d.Some? && d.value >= old(checkOut).value ==> checkOut == None
      ensures !(old(checkOut).Some? && d.Some? && d.value >= old(checkOut).value) ==> checkOut == old(checkOut)
    {
      checkIn := d;
      if checkOut.Some? && d.Some? && d.value >= checkOut.value {
        checkOut := None;
      }
    }

    method SetCheckOut(d: Option<Instant>)
      modifies this`checkOut
      ensures checkOut == d
    {
      checkOut := d;
    }

    /** The minus button: `Math.max(1, g - 1)`. */
    method DecGuests()
      requires Valid()
      modifies this`guests
      ensures Valid()
      ensures guests == if old(guests) > 1 then old(guests) - 1 else 1
    {
      guests := if guests - 1 > 1 then guests - 1 else 1;
    }

    /** The plus button, disabled once `guests >= maxGuests`; from within
        the range it never leaves it. */
    method IncGuests()
      requires Valid() && venue.Some?
      modifies this`guests
      ensures Valid()
      ensures old(guests) < venue.value.maxGuests ==> guests == old(guests) + 1
      ensures old(guests) >= venue.value.maxGuests ==> guests == old(guests)
      ensures old(guests) <= GuestCeiling(venue.value.maxGuests) ==> guests <= GuestCeiling(venue.value.maxGuests)
    {
      if guests < venue.value.maxGuests {
        guests := guests + 1;
      }
    }
  }

  /** `others.filter((v) => v.id !== venue.id)`: the host strip never shows
      the venue on display, and keeps every other one in order. */
  function OtherVenues(others: seq<Venue>, current: string): (r: seq<Venue>)
    ensures forall i :: 0 <= i < |r| ==> r[i].id != current && r[i] in others
    ensures forall i :: 0 <= i < |others| && others[i].id != current ==> others[i] in r
  {
    Filter((v: Venue) => v.id != current, others)
  }
}
