/** The my-bookings page (src/pages/bookings/MyBookings.tsx): the signed-in
    customer's bookings are fetched, sorted in place by start date, and
    stored. `fetchMyBookings` is a parameter: the array it resolves to, or
    the failure it throws. */
module MyBookings {
  import opened Wrappers
  import opened VenueTypes

  /** A booking as the page reads it, with the venue it is for. */
  datatype Booking = Booking(id: string, dateFrom: Instant, dateTo: Instant, guests: int, venue: Venue)

  /** Ascending by start date. */
  predicate ByStart(s: seq<Booking>) {
    forall p, q :: 0 <= p < q < |s| ==> s[p].dateFrom <= s[q].dateFrom
  }

  /** Swaps the entries at `j - 1` and `j`. */
  method SwapDown(a: array<Booking>, j: int)
    requires 0 < j < a.Length
    modifies a
    ensures a[..] == old(a[..])[j - 1 := old(a[j])][j := old(a[j - 1])]
    ensures multiset(a[..]) == multiset(old(a[..]))
  {
    a[j - 1], a[j] := a[j], a[j - 1];
  }

  /** One pass of the sort: entry `i` sinks into the ascending prefix
      before it. Entries after `i` are not touched. */
  method Sink(a: array<Booking>, i: int)
    requires 0 <= i < a.Length && ByStart(a[..i])
    modifies a
    ensures ByStart(a[..i + 1])
    ensures a[i + 1..] == old(a[i + 1..])
    ensures multiset(a[..]) == multiset(old(a[..]))
  {
    var j := i;
    while j > 0 && a[j - 1].dateFrom > a[j].dateFrom
      invariant 0 <= j <= i
      invariant forall p, q :: 0 <= p < q <= i && p != j && q != j ==> a[p].dateFrom <= a[q].dateFrom
      invariant forall q :: j < q <= i ==> a[j].dateFrom < a[q].dateFrom
      invariant a[i + 1..] == old(a[i + 1..])
      invariant multiset(a[..]) == multiset(old(a[..]))
    {
      SwapDown(a, j);
      j := j - 1;
    }
  }

  /** `data.sort((a, b) => dateFrom(a) - dateFrom(b))`: the array ends up
      ascending by start date and holds the same bookings. */
  method SortByStart(a: array<Booking>)
    modifies a
    ensures ByStart(a[..])
    ensures multiset(a[..]) == multiset(old(a[..]))
  {
    for i := 0 to a.Length
      invariant ByStart(a[..i])
      invariant multiset(a[..]) == multiset(old(a[..]))
    {
      Sink(a, i);
    }
    assert a[..a.Length] == a[..];
  }

  class MyBookingsPage {
    var bookings: seq<Booking>
    var loading: bool

    /** The page opens with no bookings and the spinner on. */
    constructor ()
      ensures bookings == [] && loading
    {
      bookings, loading := [], true;
    }

    /** The load effect. Without a name or a token nothing is fetched and
        the page stays as it is. Otherwise a failure keeps the list as it
        was, and fetched bookings are stored sorted by start; the spinner
        stops either way. */
    method Load(name: string, token: string, fetched: Outcome<array<Booking>>) returns (requested: bool)
      modifies this, if fetched.Done? then {fetched.value} else {}
      ensures requested <==> name != "" && token != ""
      ensures !requested ==> bookings == old(bookings) && loading == old(loading)
      ensures requested ==> !loading
      ensures requested && fetched.Threw? ==> bookings == old(bookings)
      ensures requested && fetched.Done? ==>
                ByStart(bookings) && multiset(bookings) == multiset(old(fetched.value[..]))
    {
      if name == "" || token == "" {
        return false;
      }
      requested := true;
      if fetched.Done? {
        var data := fetched.value;
        SortByStart(data);
        bookings := data[..];
      }
      loading := false;
    }
  }

  /** On a first load that fails the page shows no bookings. */
  method FailedFirstLoad(name: string, token: string, message: Option<string>)
    returns (shown: seq<Booking>, spinner: bool)
    requires name != "" && token != ""
    ensures shown == [] && !spinner
  {
    var page := new MyBookingsPage();
    var _ := page.Load(name, token, Threw(message));
    shown, spinner := page.bookings, page.loading;
  }
}
