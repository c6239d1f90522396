/** The search results page (src/pages/searchResults/SearchResults.tsx):
    keyword results filtered by guest count, then an availability pass over
    the chosen dates with a per-page cache. The fuzzy ranking of the keyword
    list is an input (`fuzzy`), and `fetchVenueById(id, { bookings: true })`
    is the oracle `fetch`. */
module SearchResults {
  import opened Wrappers
  import opened VenueTypes
  import opened Seqs
  import opened AvailabilityHelper
  import opened AvailabilityCache

  /** `list.filter((v) => v.maxGuests >= guests)` */
  function GuestFilter(list: seq<Venue>, guests: int): (r: seq<Venue>)
    ensures forall i :: 0 <= i < |r| ==> r[i] in list && r[i].maxGuests >= guests
    ensures forall i :: 0 <= i < |list| && list[i].maxGuests >= guests ==> list[i] in r
  {
    Filter((v: Venue) => v.maxGuests >= guests, list)
  }

  /** The guest filter keeps input order: it distributes over concatenation. */
  lemma GuestFilterKeepsOrder(a: seq<Venue>, b: seq<Venue>, guests: int)
    ensures GuestFilter(a + b, guests) == GuestFilter(a, guests) + GuestFilter(b, guests)
  {
    FilterAppend((v: Venue) => v.maxGuests >= guests, a, b);
  }

  /** The page's inline check: `!full.bookings?.some(overlap(...))`, with a
      rejected fetch caught as "available". A missing `bookings` array makes
      `?.some` undefined, and `!undefined` is true. */
  function InlineFlag(fetched: Outcome<Venue>, checkIn: Instant, checkOut: Instant): bool {
    match fetched
    case Threw(_) => true
    case Done(full) =>
      match full.bookings
      case None => true
      case Some(bookings) => !AnyOverlap(bookings, checkIn, checkOut)
  }

  /** The inline check answers exactly what the shared helper answers. */
  lemma InlineFlagAgreesWithHelper(id: string, checkIn: Instant, checkOut: Instant,
                                   fetch: string -> Outcome<Venue>)
    ensures InlineFlag(fetch(id), checkIn, checkOut) ==
            IsVenueAvailableForDates(id, checkIn, checkOut, fetch)
  {
  }

  /** The uncached check of one id over `[checkIn, checkOut]`. */
  function CheckOf(fetch: string -> Outcome<Venue>, checkIn: Instant, checkOut: Instant): string -> bool {
    (id: string) => InlineFlag(fetch(id), checkIn, checkOut)
  }

  class SearchPage {
    var all: seq<Venue>
    var filtered: seq<Venue>
    var loading: bool
    var checking: bool
    /** `availCache`: venue id to "available" flag. */
    var availCache: map<string, bool>
    /** The ids passed to `fetch`, in call order. */
    var fetched: seq<string>

    constructor ()
      ensures all == [] && filtered == [] && !loading && !checking
      ensures availCache == map[] && fetched == []
    {
      all, filtered, loading, checking := [], [], false, false;
      availCache, fetched := map[], [];
    }

    /** The keyword fetch: nothing without a term; otherwise the results that
        seat at least `guests`. A rejected search is not caught, so the page
        stays loading. */
    method LoadKeywordResults(term: string, guests: int, results: Outcome<seq<Venue>>)
      modifies this`all, this`loading
      ensures term == "" ==> all == old(all) && loading == old(loading)
      ensures term != "" && results.Done? ==> all == GuestFilter(results.value, guests) && !loading
      ensures term != "" && results.Threw? ==> all == old(all) && loading
    {
      if term == "" {
        return;
      }
      loading := true;
      if results.Done? {
        all := GuestFilter(results.value, guests);
        loading := false;
      }
    }

    /** One task of the pass: a cache hit answers the stored flag without
        fetching; a miss fetches, computes "no booking overlaps" (true on a
        failed fetch) and stores it. */
    method CheckVenue(v: Venue, checkIn: Instant, checkOut: Instant,
                      fetch: string -> Outcome<Venue>) returns (flag: bool)
      modifies this`availCache, this`fetched
      ensures flag == Lookup(old(availCache), v.id, CheckOf(fetch, checkIn, checkOut))
      ensures v.id in old(availCache) ==>
        flag == old(availCache)[v.id] && availCache == old(availCache) && fetched == old(fetched)
      ensures v.id !in old(availCache) ==>
        && flag == InlineFlag(fetch(v.id), checkIn, checkOut)
        && availCache == old(availCache)[v.id := flag]
        && fetched == old(fetched) + [v.id]
    {
      if v.id in availCache {
        return availCache[v.id];
      }
      fetched := fetched + [v.id];
      flag := InlineFlag(fetch(v.id), checkIn, checkOut);
      availCache := availCache[v.id := flag];
    }

    /** Every task of the pass, run one after another over `all`; the flags
        come back in input order. */
    method CheckAll(checkIn: Instant, checkOut: Instant, fetch: string -> Outcome<Venue>)
      returns (flags: seq<bool>)
      modifies this`availCache, this`fetched
      ensures |flags| == |all|
      ensures forall k :: 0 <= k < |all| ==>
        flags[k] == Lookup(old(availCache), all[k].id, CheckOf(fetch, checkIn, checkOut))
      ensures availCache == Resolve(old(availCache), all, CheckOf(fetch, checkIn, checkOut))
      ensures fetched == old(fetched) + Misses(old(availCache), all)
    {
      ghost var check := CheckOf(fetch, checkIn, checkOut);
      ghost var cache0 := availCache;
      ghost var fetched0 := fetched;
      var vs := all;
      flags := [];
      var i := 0;
      while i < |vs|
        invariant 0 <= i <= |vs|
        invariant |flags| == i
        invariant availCache == Resolve(cache0, vs[..i], check)
        invariant fetched == fetched0 + Misses(cache0, vs[..i])
        invariant forall k :: 0 <= k < i ==> flags[k] == Lookup(cache0, vs[k].id, check)
      {
        var v := vs[i];
        ghost var prefix := vs[..i];
        assert vs[..i + 1] == prefix + [v];
        ResolveStep(cache0, prefix, v, check);
        MissesStep(cache0, prefix, v, check);
        LookupAfter(cache0, prefix, v.id, check);
        var flag := CheckVenue(v, checkIn, checkOut, fetch);
        flags := flags + [flag];
        i := i + 1;
      }
      assert vs[..i] == vs;
    }

    /** The availability pass. Without both dates nothing is checked. With a
        non-empty term the page shows the fuzzy list, whatever the flags say.
        When the pass was cancelled before it finished, the shown list is
        left alone. */
    method AvailabilityPass(term: string, checkIn: Option<Instant>, checkOut: Option<Instant>,
                            fuzzy: seq<Venue>, fetch: string -> Outcome<Venue>, cancelled: bool)
      modifies this`filtered, this`checking, this`availCache, this`fetched
      ensures checkIn.None? || checkOut.None? ==>
        && filtered == (if term != "" then fuzzy else all)
        && checking == old(checking)
        && availCache == old(availCache) && fetched == old(fetched)
      ensures checkIn.Some? && checkOut.Some? ==>
        && availCache == Resolve(old(availCache), all, CheckOf(fetch, checkIn.value, checkOut.value))
        && fetched == old(fetched) + Misses(old(availCache), all)
        && (cancelled ==> filtered == old(filtered) && checking)
        && (!cancelled ==> !checking)
        && (!cancelled && term != "" ==> filtered == fuzzy)
        && (!cancelled && term == "" ==>
              filtered == Filter(CachedFlag(old(availCache), CheckOf(fetch, checkIn.value, checkOut.value)), all))
    {
      if checkIn.None? || checkOut.None? {
        filtered := if term != "" then fuzzy else all;
        return;
      }
      checking := true;
      ghost var cache0 := availCache;
      var flags := CheckAll(checkIn.value, checkOut.value, fetch);
      if cancelled {
        return;
      }
      var available := FilterByFlags(all, flags);
      FilterByCachedFlags(all, flags, cache0, CheckOf(fetch, checkIn.value, checkOut.value));
      filtered := if term != "" then fuzzy else available;
      checking := false;
    }
  }
}
