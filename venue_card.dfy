/** The labels of a venue card (src/components/VenueCard.tsx): the
    "Superhost"/"New" badge, the amenity line, the city line, the cover
    image's alt text, and which part of the card is a link. "Now" is the
    parameter `now`, in milliseconds like the instants. */
module VenueCard {
  import opened Wrappers
  import opened Strings
  import opened VenueTypes

  const DayMs: int := 1000 * 60 * 60 * 24

  /** `isSuperhost`: a rating is given and it is at least 4.8. */
  predicate IsSuperhost(rating: Option<real>) {
    rating.Some? && rating.value >= 4.8
  }

  /** `isNewVenue`: created at most 30 days before `now`; no creation date
      means not new. */
  predicate IsNewVenue(created: Option<Instant>, now: Instant) {
    created.Some? && now - created.value <= 30 * DayMs
  }

  /** A venue stays new until 30 days have passed, and is new again for no
      later `now`. */
  lemma NewnessOnlyFades(created: Instant, now: Instant, later: Instant)
    requires now <= later
    ensures IsNewVenue(Some(created), later) ==> IsNewVenue(Some(created), now)
    ensures IsNewVenue(Some(created), now) <==> created >= now - 30 * DayMs
  {
  }

  /** The badge over the photo: "Superhost" wins over "New". */
  function Badge(v: Venue, now: Instant): (b: Option<string>)
    ensures b.Some? <==> IsSuperhost(v.rating) || IsNewVenue(v.created, now)
    ensures b == Some("Superhost") <==> IsSuperhost(v.rating)
    ensures b == Some("New") <==> !IsSuperhost(v.rating) && IsNewVenue(v.created, now)
  {
    if IsSuperhost(v.rating) || IsNewVenue(v.created, now) then
      Some(if IsSuperhost(v.rating) then "Superhost" else "New")
    else None
  }

  function AmenityLabel(k: Amenity): string {
    match k
    case Wifi => "WiFi"
    case Parking => "Parking"
    case Breakfast => "Breakfast"
    case Pets => "Pets Allowed"
  }

  /** The fixed order the amenities are listed in. */
  const AmenityOrder: seq<Amenity> := [Wifi, Parking, Breakfast, Pets]

  /** The place of an amenity in that order. */
  function Rank(k: Amenity): nat {
    match k
    case Wifi => 0
    case Parking => 1
    case Breakfast => 2
    case Pets => 3
  }

  predicate Ascending(ks: seq<Amenity>) {
    forall i, j :: 0 <= i < j < |ks| ==> Rank(ks[i]) < Rank(ks[j])
  }

  /** The amenities of `order` the venue has, in that order. */
  function Kinds(v: Venue, order: seq<Amenity>): seq<Amenity> {
    if order == [] then []
    else (if HasAmenity(v, order[0]) then [order[0]] else []) + Kinds(v, order[1..])
  }

  function Labels(ks: seq<Amenity>): seq<string> {
    seq(|ks|, i requires 0 <= i < |ks| => AmenityLabel(ks[i]))
  }

  /** The labels the amenity line lists. */
  function Enabled(v: Venue): seq<string> {
    Labels(Kinds(v, AmenityOrder))
  }

  /** The amenity line: the labels joined by " · ", or "None". */
  function AmenityLine(items: seq<string>): string {
    if items == [] then "None" else Join(items, " · ")
  }

  lemma KindsCons(v: Venue, x: Amenity, rest: seq<Amenity>)
    ensures Kinds(v, [x] + rest) == (if HasAmenity(v, x) then [x] else []) + Kinds(v, rest)
  {
    assert ([x] + rest)[1..] == rest;
  }

  lemma KindsOfOrder(v: Venue)
    ensures Kinds(v, AmenityOrder) ==
      (if HasAmenity(v, Wifi) then [Wifi] else []) + (if HasAmenity(v, Parking) then [Parking] else []) +
      (if HasAmenity(v, Breakfast) then [Breakfast] else []) + (if HasAmenity(v, Pets) then [Pets] else [])
  {
    KindsCons(v, Pets, []);
    KindsCons(v, Breakfast, [Pets]);
    KindsCons(v, Parking, [Breakfast, Pets]);
    KindsCons(v, Wifi, [Parking, Breakfast, Pets]);
  }

  /** `listAmenities`: the items are pushed one flag at a time. */
  method ListAmenities(v: Venue) returns (line: string)
    ensures line == AmenityLine(Enabled(v))
  {
    var items: seq<string> := [];
    if HasAmenity(v, Wifi) {
      items := items + ["WiFi"];
    }
    if HasAmenity(v, Parking) {
      items := items + ["Parking"];
    }
    if HasAmenity(v, Breakfast) {
      items := items + ["Breakfast"];
    }
    if HasAmenity(v, Pets) {
      items := items + ["Pets Allowed"];
    }
    KindsOfOrder(v);
    assert items == Enabled(v);
    line := if |items| > 0 then Join(items, " · ") else "None";
  }

  /** An amenity of the order is kept exactly when the venue has it. */
  lemma {:induction false} KindsSpec(v: Venue, order: seq<Amenity>, k: Amenity)
    ensures k in Kinds(v, order) <==> k in order && HasAmenity(v, k)
    decreases |order|
  {
    if order != [] {
      KindsSpec(v, order[1..], k);
      assert k in order <==> k == order[0] || k in order[1..];
    }
  }

  /** Keeping some amenities of an ascending order keeps them ascending. */
  lemma {:induction false} KindsAscending(v: Venue, order: seq<Amenity>)
    requires Ascending(order)
    ensures Ascending(Kinds(v, order))
    decreases |order|
  {
    if order != [] {
      var rest := Kinds(v, order[1..]);
      KindsAscending(v, order[1..]);
      forall k | k in rest ensures Rank(order[0]) < Rank(k) {
        KindsSpec(v, order[1..], k);
        var j :| 0 <= j < |order[1..]| && order[1..][j] == k;
        assert order[j + 1] == k;
      }
      var head := if HasAmenity(v, order[0]) then [order[0]] else [];
      forall i, j | 0 <= i < j < |head + rest|
        ensures Rank((head + rest)[i]) < Rank((head + rest)[j])
      {
        if i < |head| {
          assert (head + rest)[j] == rest[j - 1] && rest[j - 1] in rest;
        }
      }
    }
  }

  /** The line lists each amenity the venue has and no other, in the order
      WiFi, Parking, Breakfast, Pets Allowed. */
  lemma EnabledSpec(v: Venue, k: Amenity)
    ensures AmenityLabel(k) in Enabled(v) <==> HasAmenity(v, k)
    ensures Enabled(v) == Labels(Kinds(v, AmenityOrder)) && Ascending(Kinds(v, AmenityOrder))
  {
    var kinds := Kinds(v, AmenityOrder);
    KindsSpec(v, AmenityOrder, k);
    KindsAscending(v, AmenityOrder);
    if k in kinds {
      var i :| 0 <= i < |kinds| && kinds[i] == k;
      assert Labels(kinds)[i] == AmenityLabel(k);
    }
    if AmenityLabel(k) in Enabled(v) {
      var i :| 0 <= i < |kinds| && AmenityLabel(kinds[i]) == AmenityLabel(k);
      assert kinds[i] == k;
    }
  }

  lemma JoinStartsWithFirst(parts: seq<string>, sep: string)
    requires |parts| >= 1
    ensures |Join(parts, sep)| >= |parts[0]|
    ensures Join(parts, sep)[..|parts[0]|] == parts[0]
  {
    if |parts| > 1 {
      assert Join(parts, sep) == parts[0] + (sep + Join(parts[1..], sep));
    }
  }

  /** The line says "None" exactly when the venue has none of the four. */
  lemma NoneIffNoAmenity(v: Venue)
    ensures AmenityLine(Enabled(v)) == "None" <==> forall k: Amenity :: !HasAmenity(v, k)
  {
    var items := Enabled(v);
    if items != [] {
      JoinStartsWithFirst(items, " · ");
      var k := Kinds(v, AmenityOrder)[0];
      assert items[0] == AmenityLabel(k);
      assert Join(items, " · ")[0] == items[0][0];
      EnabledSpec(v, k);
    } else {
      forall k: Amenity ensures !HasAmenity(v, k) {
        EnabledSpec(v, k);
      }
    }
  }

  /** `venue.location?.city?.trim() || "Location Unspecified"` */
  function CityDisplay(v: Venue): string {
    var city := if v.location.Some? && v.location.value.city.Some?
                then Trim(v.location.value.city.value) else "";
    if city != "" then city else "Location Unspecified"
  }

  /** The city line is never blank and has no edge whitespace; it is the
      trimmed city whenever that is not empty. */
  lemma CityDisplayTrimmed(v: Venue)
    ensures CityDisplay(v) != "" && Trimmed(CityDisplay(v))
    ensures v.location.Some? && v.location.value.city.Some? && Trim(v.location.value.city.value) != "" ==>
              CityDisplay(v) == Trim(v.location.value.city.value)
  {
    if v.location.Some? && v.location.value.city.Some? {
      var _ := TrimSpec(v.location.value.city.value);
    }
  }

  /** `venue.media?.[0]?.alt || venue.name` */
  function CoverAlt(v: Venue): (alt: string)
    ensures v.media.Some? && |v.media.value| > 0 && Truthy(v.media.value[0].alt) ==>
              alt == v.media.value[0].alt.value
    ensures !(v.media.Some? && |v.media.value| > 0 && Truthy(v.media.value[0].alt)) ==>
              alt == v.name
  {
    if v.media.Some? && |v.media.value| > 0 then OrElse(v.media.value[0].alt, v.name) else v.name
  }

  /** The whole card is one link unless either flag is set. */
  predicate WholeCardLinked(disableLink: bool, linkOnPhotoOnly: bool) {
    !disableLink && !linkOnPhotoOnly
  }

  /** Only the photo is a link when that is asked for and links are on. */
  predicate PhotoLinked(disableLink: bool, linkOnPhotoOnly: bool) {
    !disableLink && linkOnPhotoOnly
  }

  /** A card links at most once, and links somewhere exactly when links
      are not disabled. */
  lemma OneLinkAtMost(disableLink: bool, linkOnPhotoOnly: bool)
    ensures !(WholeCardLinked(disableLink, linkOnPhotoOnly) && PhotoLinked(disableLink, linkOnPhotoOnly))
    ensures (WholeCardLinked(disableLink, linkOnPhotoOnly) || PhotoLinked(disableLink, linkOnPhotoOnly))
              == !disableLink
  {
  }
}
