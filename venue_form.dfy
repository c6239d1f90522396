/** The venue form shared by the create and edit pages (`NewVenue` in
    src/rulesets/types.ts), seen as a record of seven keyed fields, and the
    keyed update both pages call `updateField`. */
module VenueForm {
  import opened Wrappers
  import opened VenueTypes

  /** The form. Both pages always fill in `location`. */
  datatype NewVenue = NewVenue(
    name: string,
    description: string,
    price: int,
    maxGuests: int,
    media: seq<Media>,
    meta: VenueMeta,
    location: VenueLocation)

  /** `keyof NewVenue` */
  datatype FormKey = KName | KDescription | KPrice | KMaxGuests | KMedia | KMeta | KLocation

  /** `Object.keys(form)`: the keys in the order the form object is built. */
  const FormKeys: seq<FormKey> := [KName, KDescription, KPrice, KMaxGuests, KMedia, KMeta, KLocation]

  lemma FormKeysComplete(k: FormKey)
    ensures k in FormKeys
  {
  }

  /** The value under one key. */
  datatype FieldValue =
    | Text(text: string)
    | Number(number: int)
    | MediaList(items: seq<Media>)
    | Flags(flags: VenueMeta)
    | Place(place: VenueLocation)

  /** `NewVenue[K]`: which kind of value each key holds. */
  predicate Fits(k: FormKey, value: FieldValue) {
    match k
    case KName => value.Text?
    case KDescription => value.Text?
    case KPrice => value.Number?
    case KMaxGuests => value.Number?
    case KMedia => value.MediaList?
    case KMeta => value.Flags?
    case KLocation => value.Place?
  }

  /** `form[k]` */
  function Field(form: NewVenue, k: FormKey): (value: FieldValue)
    ensures Fits(k, value)
  {
    match k
    case KName => Text(form.name)
    case KDescription => Text(form.description)
    case KPrice => Number(form.price)
    case KMaxGuests => Number(form.maxGuests)
    case KMedia => MediaList(form.media)
    case KMeta => Flags(form.meta)
    case KLocation => Place(form.location)
  }

  /** A form is determined by its seven fields. */
  lemma FieldsDetermineForm(a: NewVenue, b: NewVenue)
    requires forall k: FormKey :: Field(a, k) == Field(b, k)
    ensures a == b
  {
    assert Field(a, KName) == Field(b, KName);
    assert Field(a, KDescription) == Field(b, KDescription);
    assert Field(a, KPrice) == Field(b, KPrice);
    assert Field(a, KMaxGuests) == Field(b, KMaxGuests);
    assert Field(a, KMedia) == Field(b, KMedia);
    assert Field(a, KMeta) == Field(b, KMeta);
    assert Field(a, KLocation) == Field(b, KLocation);
  }

  /** `{ ...form, [key]: value }`: the named field takes the value, every
      other field keeps its own. */
  function SetField(form: NewVenue, k: FormKey, value: FieldValue): (r: NewVenue)
    requires Fits(k, value)
    ensures Field(r, k) == value
    ensures forall j: FormKey :: j != k ==> Field(r, j) == Field(form, j)
  {
    match k
    case KName => form.(name := value.text)
    case KDescription => form.(description := value.text)
    case KPrice => form.(price := value.number)
    case KMaxGuests => form.(maxGuests := value.number)
    case KMedia => form.(media := value.items)
    case KMeta => form.(meta := value.flags)
    case KLocation => form.(location := value.place)
  }

  /** Writing back a field's own value changes nothing, and of two writes
      to one key the later wins. */
  lemma SetFieldLaws(form: NewVenue, k: FormKey, a: FieldValue, b: FieldValue)
    requires Fits(k, a) && Fits(k, b)
    ensures SetField(form, k, Field(form, k)) == form
    ensures SetField(SetField(form, k, a), k, b) == SetField(form, k, b)
  {
    FieldsDetermineForm(SetField(form, k, Field(form, k)), form);
    FieldsDetermineForm(SetField(SetField(form, k, a), k, b), SetField(form, k, b));
  }

  /** `meta[k]` */
  function MetaFlag(m: VenueMeta, k: Amenity): Option<bool> {
    match k
    case Wifi => m.wifi
    case Parking => m.parking
    case Breakfast => m.breakfast
    case Pets => m.pets
  }

  /** `{ ...meta, [k]: flag }` */
  function WithFlag(m: VenueMeta, k: Amenity, flag: Option<bool>): (r: VenueMeta)
    ensures MetaFlag(r, k) == flag
    ensures forall j: Amenity :: j != k ==> MetaFlag(r, j) == MetaFlag(m, j)
  {
    match k
    case Wifi => m.(wifi := flag)
    case Parking => m.(parking := flag)
    case Breakfast => m.(breakfast := flag)
    case Pets => m.(pets := flag)
  }

  /** A `meta` record is determined by its four flags. */
  lemma FlagsDetermineMeta(a: VenueMeta, b: VenueMeta)
    requires forall k: Amenity :: MetaFlag(a, k) == MetaFlag(b, k)
    ensures a == b
  {
    assert MetaFlag(a, Wifi) == MetaFlag(b, Wifi);
    assert MetaFlag(a, Parking) == MetaFlag(b, Parking);
    assert MetaFlag(a, Breakfast) == MetaFlag(b, Breakfast);
    assert MetaFlag(a, Pets) == MetaFlag(b, Pets);
  }

  /** The blank address both pages start from (`emptyLoc`). */
  const EmptyLocation: VenueLocation :=
    VenueLocation(Some(""), Some(""), Some(""), Some(""), Some(""), None, None)
}
