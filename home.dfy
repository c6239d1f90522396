/** The landing page (src/pages/Home.tsx): the static filter over guests,
    category and amenities, the manual availability pass with its
    session-long cache, the sort options and the "popular" strip, and the
    guest and date-picker guards. `isVenueAvailableForDates` keeps its fetch
    oracle `fetch`. */
module Home {
  import opened Wrappers
  import opened VenueTypes
  import opened Strings
  import opened Seqs
  import opened AvailabilityHelper
  import opened AvailabilityCache

  /** The themed categories of the filter bar. */
  datatype Category = All | Mountain | Beach | Cabin | Lakefront | Luxury {
    function Label(): string {
      match this
      case All => "All"
      case Mountain => "Mountain"
      case Beach => "Beach"
      case Cabin => "Cabin"
      case Lakefront => "Lakefront"
      case Luxury => "Luxury"
    }
  }

  /** The four amenity toggles (`Record<FilterKey, boolean>`). */
  datatype Filters = Filters(wifi: bool, parking: bool, breakfast: bool, pets: bool)

  datatype SortKey = Default | Newest | Oldest

  /** `` `${v.name} ${v.description ?? ""}`.toLowerCase() `` */
  function Blob(v: Venue): string {
    Lower(v.name + " " + v.description.GetOr(""))
  }

  /** The category test: "All" passes everything, any other category needs
      its lower-cased label somewhere in the lower-cased name and
      description. */
  predicate MatchesCategory(v: Venue, c: Category) {
    c == All || Contains(Blob(v), Lower(c.Label()))
  }

  /** Every active amenity toggle is met by the venue. */
  predicate MeetsFilters(v: Venue, f: Filters) {
    && (!f.wifi || HasAmenity(v, Wifi))
    && (!f.parking || HasAmenity(v, Parking))
    && (!f.breakfast || HasAmenity(v, Breakfast))
    && (!f.pets || HasAmenity(v, Pets))
  }

  /** The three tests of the static filter, in the order the page runs them. */
  predicate Keep(v: Venue, guests: int, c: Category, f: Filters) {
    v.maxGuests >= guests && MatchesCategory(v, c) && MeetsFilters(v, f)
  }

  /** `baseFiltered`: `venues.filter(...)` with the three tests above. */
  function BaseFiltered(venues: seq<Venue>, guests: int, c: Category, f: Filters): seq<Venue> {
    if venues == [] then []
    else (if Keep(venues[0], guests, c, f) then [venues[0]] else [])
         + BaseFiltered(venues[1..], guests, c, f)
  }

  /** The static filter is the array filter with the three tests: it keeps
      exactly the venues that seat the party, fit the category and have every
      active amenity, in their original order. */
  lemma {:induction false} BaseFilteredSpec(venues: seq<Venue>, guests: int, c: Category, f: Filters)
    ensures BaseFiltered(venues, guests, c, f) == Filter((v: Venue) => Keep(v, guests, c, f), venues)
    ensures forall i :: 0 <= i < |BaseFiltered(venues, guests, c, f)| ==>
      BaseFiltered(venues, guests, c, f)[i] in venues && Keep(BaseFiltered(venues, guests, c, f)[i], guests, c, f)
    ensures forall i :: 0 <= i < |venues| && Keep(venues[i], guests, c, f) ==>
      venues[i] in BaseFiltered(venues, guests, c, f)
    decreases |venues|
  {
    if venues != [] {
      BaseFilteredSpec(venues[1..], guests, c, f);
    }
  }

  /** The static filter keeps input order: it distributes over
      concatenation. */
  lemma BaseFilteredKeepsOrder(a: seq<Venue>, b: seq<Venue>, guests: int, c: Category, f: Filters)
    ensures BaseFiltered(a + b, guests, c, f) == BaseFiltered(a, guests, c, f) + BaseFiltered(b, guests, c, f)
  {
    BaseFilteredSpec(a + b, guests, c, f);
    BaseFilteredSpec(a, guests, c, f);
    BaseFilteredSpec(b, guests, c, f);
    FilterAppend((v: Venue) => Keep(v, guests, c, f), a, b);
  }

  /** The category test ignores case: a venue whose name holds the label in
      any capitalisation ("MOUNTAIN", "mountain") is in that category. */
  lemma CategoryIgnoresCase(v: Venue, c: Category, word: string)
    requires Lower(word) == Lower(c.Label())
    requires Contains(v.name, word)
    ensures MatchesCategory(v, c)
  {
    var i := OccursIfContains(v.name, word);
    OccursInPrefix(v.name, " " + v.description.GetOr(""), word, i);
    assert v.name + (" " + v.description.GetOr("")) == v.name + " " + v.description.GetOr("");
    LowerOccurs(v.name + " " + v.description.GetOr(""), word, i);
    ContainsIfOccurs(Blob(v), Lower(c.Label()), i);
  }

  /** Asking for more guests never brings a venue back. */
  lemma {:induction false} MoreGuestsNarrow(venues: seq<Venue>, g1: int, g2: int, c: Category, f: Filters)
    requires g1 <= g2
    ensures forall i :: 0 <= i < |BaseFiltered(venues, g2, c, f)| ==>
      BaseFiltered(venues, g2, c, f)[i] in BaseFiltered(venues, g1, c, f)
  {
    BaseFilteredSpec(venues, g1, c, f);
    BaseFilteredSpec(venues, g2, c, f);
    forall i | 0 <= i < |BaseFiltered(venues, g2, c, f)|
      ensures BaseFiltered(venues, g2, c, f)[i] in BaseFiltered(venues, g1, c, f)
    {
      var v := BaseFiltered(venues, g2, c, f)[i];
      var j :| 0 <= j < |venues| && venues[j] == v;
      assert Keep(venues[j], g1, c, f);
    }
  }

  /** `created ?? 0` as a number. */
  function Created(v: Venue): Instant {
    v.created.GetOr(0)
  }

  /** `sorted`: "default" keeps the filtered order; "newest" puts the latest
      `created` first, "oldest" the earliest; a missing `created` counts as
      instant 0. The result is always a reordering of the input. */
  function Sorted(list: seq<Venue>, key: SortKey): (r: seq<Venue>)
    ensures multiset(r) == multiset(list) && |r| == |list|
    ensures key == Default ==> r == list
    ensures key == Newest ==> forall i, j :: 0 <= i < j < |r| ==> Created(r[i]) >= Created(r[j])
    ensures key == Oldest ==> forall i, j :: 0 <= i < j < |r| ==> Created(r[i]) <= Created(r[j])
  {
    match key
    case Default => list
    case Newest => SortBy(list, (v: Venue) => -(Created(v) as real))
    case Oldest => SortBy(list, (v: Venue) => Created(v) as real)
  }

  /** `rating ?? 0` */
  function Rating(v: Venue): real {
    v.rating.GetOr(0.0)
  }

  /** Every venue past the cut of a rating-descending list is rated no
      higher than any venue before it. */
  lemma PopularCut(sorted: seq<Venue>, n: nat)
    requires n <= |sorted|
    requires SortedBy(sorted, (v: Venue) => -Rating(v))
    ensures forall i, j :: 0 <= i < n <= j < |sorted| ==> Rating(sorted[j]) <= Rating(sorted[i])
  {
    forall i, j | 0 <= i < n <= j < |sorted|
      ensures Rating(sorted[j]) <= Rating(sorted[i])
    {
      assert -Rating(sorted[i]) <= -Rating(sorted[j]);
    }
  }

  /** `popular`: the four best-rated venues (fewer when there are fewer),
      best first, with a missing rating counted as 0; no venue left out is
      rated higher than one shown. */
  function Popular(venues: seq<Venue>): (r: seq<Venue>)
    ensures |r| == if |venues| < 4 then |venues| else 4
    ensures forall i, j :: 0 <= i < j < |r| ==> Rating(r[i]) >= Rating(r[j])
    ensures multiset(r) <= multiset(venues)
    ensures forall i, v :: 0 <= i < |r| && v in multiset(venues) - multiset(r) ==> Rating(v) <= Rating(r[i])
  {
    var sorted := SortBy(venues, (v: Venue) => -Rating(v));
    var n := if |sorted| < 4 then |sorted| else 4;
    PopularCut(sorted, n);
    assert sorted == sorted[..n] + sorted[n..];
    assert multiset(sorted) == multiset(sorted[..n]) + multiset(sorted[n..]);
    PopularRest(sorted, n);
    sorted[..n]
  }

  /** What the cut leaves out is exactly the tail of the sorted list, so
      each left-out venue sits at some index past the cut. */
  lemma PopularRest(sorted: seq<Venue>, n: nat)
    requires n <= |sorted|
    requires forall i, j :: 0 <= i < n <= j < |sorted| ==> Rating(sorted[j]) <= Rating(sorted[i])
    ensures forall i, v :: 0 <= i < n && v in multiset(sorted) - multiset(sorted[..n]) ==>
      Rating(v) <= Rating(sorted[..n][i])
  {
    assert sorted == sorted[..n] + sorted[n..];
    forall i, v | 0 <= i < n && v in multiset(sorted) - multiset(sorted[..n])
      ensures Rating(v) <= Rating(sorted[..n][i])
    {
      assert v in multiset(sorted[n..]);
      var k :| 0 <= k < |sorted[n..]| && sorted[n..][k] == v;
      assert sorted[n + k] == v;
    }
  }

  /** The uncached check of the page: the shared helper over the chosen
      dates. */
  function HelperCheck(fetch: string -> Outcome<Venue>, checkIn: Instant, checkOut: Instant): string -> bool {
    (id: string) => IsVenueAvailableForDates(id, checkIn, checkOut, fetch)
  }

  /** The cache is keyed by venue id only: once a venue's flag is stored for
      one pair of dates, the page keeps answering it after the dates change.
      With one booking `[10, 15]`, a pass for `[16, 20]` stores "available",
      and a later pass for `[12, 13]` still answers "available" although the
      helper answers "unavailable". */
  lemma StaleCacheAfterDateChange(fetch: string -> Outcome<Venue>, v: Venue)
    requires v.bookings == Some([BookingDates(10, 15)])
    requires fetch(v.id) == Done(v)
    ensures var cache := Resolve(map[], [v], HelperCheck(fetch, 16, 20));
            && Lookup(cache, v.id, HelperCheck(fetch, 12, 13))
            && !IsVenueAvailableForDates(v.id, 12, 13, fetch)
  {
    assert [v][..0] == [];
    assert Resolve(map[], [], HelperCheck(fetch, 16, 20)) == map[];
  }

  class HomePage {
    var venues: seq<Venue>
    var loadingVenues: bool
    var guestsWanted: int
    var checkIn: Option<Instant>
    var checkOut: Option<Instant>
    var category: Category
    var filters: Filters
    var sortBy: SortKey
    /** `availCache`: venue id to "available" flag, kept for the whole
        session. */
    var availCache: map<string, bool>
    /** The ids passed to `fetch`, in call order. */
    var fetched: seq<string>
    var dateFiltered: seq<Venue>
    var checking: bool
    var runAvail: bool

    /** The guest count never drops below one. */
    predicate Valid()
      reads this
    {
      guestsWanted >= 1
    }

    constructor ()
      ensures Valid()
      ensures venues == [] && loadingVenues && guestsWanted == 1
      ensures checkIn == None && checkOut == None
      ensures category == All && filters == Filters(false, false, false, false) && sortBy == Default
      ensures availCache == map[] && fetched == []
      ensures dateFiltered == [] && !checking && !runAvail
    {
      venues, loadingVenues, guestsWanted := [], true, 1;
      checkIn, checkOut := None, None;
      category, filters, sortBy := All, Filters(false, false, false, false), Default;
      availCache, fetched := map[], [];
      dateFiltered, checking, runAvail := [], false, false;
    }

    /** The mount effect: every venue once. A rejected load is not caught,
        so the page stays loading. */
    method LoadVenues(result: Outcome<seq<Venue>>)
      modifies this`venues, this`loadingVenues
      ensures result.Done? ==> venues == result.value && !loadingVenues
      ensures result.Threw? ==> venues == old(venues) && loadingVenues
    {
      loadingVenues := true;
      if result.Done? {
        venues := result.value;
        loadingVenues := false;
      }
    }

    /** The current static filter. */
    function Base(): seq<Venue>
      reads this`venues, this`guestsWanted, this`category, this`filters
    {
      BaseFiltered(venues, guestsWanted, category, filters)
    }

    /** The effect that shows the static filter while no pass is pending. */
    method ShowBase()
      modifies this`dateFiltered
      ensures !runAvail ==> dateFiltered == Base()
      ensures runAvail ==> dateFiltered == old(dateFiltered)
    {
      if !runAvail {
        dateFiltered := Base();
      }
    }

    /** `isVenueAvailable`: true without both dates and without fetching; a
        cache hit answers the stored flag; a miss asks the helper and stores
        its answer. */
    method IsVenueAvailable(v: Venue, fetch: string -> Outcome<Venue>) returns (flag: bool)
      modifies this`availCache, this`fetched
      ensures checkIn.None? || checkOut.None? ==>
        flag && availCache == old(availCache) && fetched == old(fetched)
      ensures checkIn.Some? && checkOut.Some? ==>
        flag == Lookup(old(availCache), v.id, HelperCheck(fetch, checkIn.value, checkOut.value))
      ensures checkIn.Some? && checkOut.Some? && v.id in old(availCache) ==>
        availCache == old(availCache) && fetched == old(fetched)
      ensures checkIn.Some? && checkOut.Some? && v.id !in old(availCache) ==>
        availCache == old(availCache)[v.id := flag] && fetched == old(fetched) + [v.id]
    {
      if checkIn.None? || checkOut.None? {
        return true;
      }
      if v.id in availCache {
        return availCache[v.id];
      }
      fetched := fetched + [v.id];
      flag := IsVenueAvailableForDates(v.id, checkIn.value, checkOut.value, fetch);
      availCache := availCache[v.id := flag];
    }

    /** `Promise.all(baseFiltered.map(isVenueAvailable))`, run one venue
        after another: the flags in list order, the cache extended by every
        new id, and one fetch per id that was not cached. */
    method CheckFlags(list: seq<Venue>, fetch: string -> Outcome<Venue>) returns (flags: seq<bool>)
      requires checkIn.Some? && checkOut.Some?
      modifies this`availCache, this`fetched
      ensures |flags| == |list|
      ensures forall k :: 0 <= k < |list| ==>
        flags[k] == Lookup(old(availCache), list[k].id, HelperCheck(fetch, checkIn.value, checkOut.value))
      ensures availCache == Resolve(old(availCache), list, HelperCheck(fetch, checkIn.value, checkOut.value))
      ensures fetched == old(fetched) + Misses(old(availCache), list)
    {
      ghost var check := HelperCheck(fetch, checkIn.value, checkOut.value);
      ghost var cache0 := availCache;
      ghost var fetched0 := fetched;
      flags := [];
      var i := 0;
      while i < |list|
        invariant 0 <= i <= |list|
        invariant |flags| == i
        invariant availCache == Resolve(cache0, list[..i], check)
        invariant fetched == fetched0 + Misses(cache0, list[..i])
        invariant forall k :: 0 <= k < i ==> flags[k] == Lookup(cache0, list[k].id, check)
      {
        var v := list[i];
        ghost var prefix := list[..i];
        assert list[..i + 1] == prefix + [v];
        ResolveStep(cache0, prefix, v, check);
        MissesStep(cache0, prefix, v, check);
        LookupAfter(cache0, prefix, v.id, check);
        var flag := IsVenueAvailable(v, fetch);
        flags := flags + [flag];
        i := i + 1;
      }
      assert list[..i] == list;
    }

    /** The availability effect after a search click. Without both dates
        the static list is shown; otherwise the static list is narrowed to
        the venues whose (possibly cached) flag is true, in order. */
    method RunAvailability(fetch: string -> Outcome<Venue>)
      modifies this`availCache, this`fetched, this`dateFiltered, this`checking, this`runAvail
      ensures !old(runAvail) ==>
        && dateFiltered == old(dateFiltered) && runAvail == old(runAvail) && checking == old(checking)
        && availCache == old(availCache) && fetched == old(fetched)
      ensures old(runAvail) && (checkIn.None? || checkOut.None?) ==>
        && dateFiltered == Base() && !runAvail && checking == old(checking)
        && availCache == old(availCache) && fetched == old(fetched)
      ensures old(runAvail) && checkIn.Some? && checkOut.Some? ==>
        && dateFiltered == Filter(CachedFlag(old(availCache), HelperCheck(fetch, checkIn.value, checkOut.value)), Base())
        && availCache == Resolve(old(availCache), Base(), HelperCheck(fetch, checkIn.value, checkOut.value))
        && fetched == old(fetched) + Misses(old(availCache), Base())
        && !checking && !runAvail
    {
      if !runAvail {
        return;
      }
      var base := Base();
      if checkIn.None? || checkOut.None? {
        dateFiltered := base;
        runAvail := false;
        return;
      }
      ghost var cache0, fetched0 := availCache, fetched;
      checking := true;
      var flags := CheckFlags(base, fetch);
      assert fetched == fetched0 + Misses(cache0, base);
      FilterByCachedFlags(base, flags, cache0, HelperCheck(fetch, checkIn.value, checkOut.value));
      dateFiltered := FilterByFlags(base, flags);
      checking := false;
      runAvail := false;
    }

    /** The search button: request an availability pass. */
    method SearchClick()
      modifies this`runAvail
      ensures runAvail
    {
      runAvail := true;
    }

    /** The check-in picker: picking a day at or after the current check-out
        clears the check-out. The cache is left alone. */
    method SetCheckIn(d: Option<Instant>)
      modifies this`checkIn, this`checkOut
      ensures checkIn == d
      ensures old(checkOut).Some? && d.Some? && d.value >= old(checkOut).value ==> checkOut == None
      ensures !(old(checkOut).Some? && d.Some? && d.value >= old(checkOut).value) ==> checkOut == old(checkOut)
    {
      checkIn := d;
      if checkOut.Some? && d.Some? && d.value >= checkOut.value {
        checkOut := None;
      }
    }

    /** The check-out picker. The cache is left alone. */
    method SetCheckOut(d: Option<Instant>)
      modifies this`checkOut
      ensures checkOut == d
    {
      checkOut := d;
    }

    /** The minus button: `Math.max(1, g - 1)`. */
    method DecGuests()
      requires Valid()
      modifies this`guestsWanted
      ensures Valid()
      ensures guestsWanted == if old(guestsWanted) > 1 then old(guestsWanted) - 1 else 1
    {
      guestsWanted := if guestsWanted - 1 > 1 then guestsWanted - 1 else 1;
    }

    /** The plus button: one more guest, without an upper bound. */
    method IncGuests()
      requires Valid()
      modifies this`guestsWanted
      ensures Valid()
      ensures guestsWanted == old(guestsWanted) + 1
    {
      guestsWanted := guestsWanted + 1;
    }
  }
}
