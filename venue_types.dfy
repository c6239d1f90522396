/** The record shapes the REST API returns (src/rulesets/types.ts), with
    every optional property as an `Option` and dates as integer instants. */
module VenueTypes {
  import opened Wrappers

  /** An instant in time: a date already parsed to a number. */
  type Instant = int

  datatype VenueMeta = VenueMeta(
    wifi: Option<bool>,
    parking: Option<bool>,
    breakfast: Option<bool>,
    pets: Option<bool>)

  datatype VenueLocation = VenueLocation(
    address: Option<string>,
    city: Option<string>,
    zip: Option<string>,
    country: Option<string>,
    continent: Option<string>,
    lat: Option<real>,
    lng: Option<real>)

  datatype Media = Media(url: string, alt: Option<string>)

  datatype VenueOwner = VenueOwner(name: string, email: string)

  /** One reservation as the API embeds it in a venue (`_bookings=true`). */
  datatype BookingDates = BookingDates(dateFrom: Instant, dateTo: Instant)

  datatype Venue = Venue(
    id: string,
    name: string,
    description: Option<string>,
    media: Option<seq<Media>>,
    price: int,
    maxGuests: int,
    rating: Option<real>,
    meta: Option<VenueMeta>,
    location: Option<VenueLocation>,
    created: Option<Instant>,
    owner: Option<VenueOwner>,
    bookings: Option<seq<BookingDates>>)

  /** The four amenity flags of `VenueMeta`. */
  datatype Amenity = Wifi | Parking | Breakfast | Pets

  /** `v.meta?.[k]` is truthy: the venue has a `meta` and the flag is `true`. */
  predicate HasAmenity(v: Venue, k: Amenity) {
    v.meta.Some? &&
    match k
    case Wifi => v.meta.value.wifi == Some(true)
    case Parking => v.meta.value.parking == Some(true)
    case Breakfast => v.meta.value.breakfast == Some(true)
    case Pets => v.meta.value.pets == Some(true)
  }
}
