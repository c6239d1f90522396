/** The edit-venue page (src/pages/venues/EditVenue.tsx): who is sent
    away, the form built from the fetched venue, the keyed update, the save
    that sends only the changed keys, and the media list edits.
    `fetchVenueById` and `updateVenuePut` are oracles whose outcomes are
    parameters. */
module EditVenue {
  import opened Wrappers
  import opened Strings
  import opened Seqs
  import opened VenueTypes
  import opened VenueForm

  /** The first guard: nobody signed in, or not a manager, goes to the
      login page. */
  predicate SentToLogin(token: string, venueManager: bool) {
    token == "" || !venueManager
  }

  /** The ownership guard: someone other than the owner is sent home, but
      only when they are not a manager. */
  predicate SentHome(v: Venue, profileName: string, venueManager: bool) {
    !(v.owner.Some? && v.owner.value.name == profileName) && !venueManager
  }

  /** Any manager may open any venue's form; a non-manager only their own. */
  lemma ManagersPassOwnershipGuard(v: Venue, profileName: string, venueManager: bool)
    ensures venueManager ==> !SentHome(v, profileName, venueManager)
    ensures !venueManager ==>
              (SentHome(v, profileName, venueManager) <==> v.owner.None? || v.owner.value.name != profileName)
  {
  }

  /** `{ wifi: false, parking: false, breakfast: false, pets: false, ...v.meta }` */
  function MetaDefaults(m: Option<VenueMeta>): (r: VenueMeta)
    ensures forall k: Amenity :: MetaFlag(r, k) ==
              Some(if m.Some? then MetaFlag(m.value, k).GetOr(false) else false)
  {
    if m.None? then VenueMeta(Some(false), Some(false), Some(false), Some(false))
    else VenueMeta(Some(m.value.wifi.GetOr(false)), Some(m.value.parking.GetOr(false)),
                   Some(m.value.breakfast.GetOr(false)), Some(m.value.pets.GetOr(false)))
  }

  /** `{ ...emptyLoc, ...v.location }`: the five text fields default to "",
      the coordinates stay absent unless given. */
  function LocationDefaults(l: Option<VenueLocation>): (r: VenueLocation)
    ensures l.None? ==> r == EmptyLocation
    ensures l.Some? ==> r.lat == l.value.lat && r.lng == l.value.lng
    ensures l.Some? ==> r.city == Some(l.value.city.GetOr("")) && r.address == Some(l.value.address.GetOr(""))
    ensures l.Some? ==> r.zip == Some(l.value.zip.GetOr("")) && r.country == Some(l.value.country.GetOr(""))
    ensures l.Some? ==> r.continent == Some(l.value.continent.GetOr(""))
  {
    if l.None? then EmptyLocation
    else VenueLocation(Some(l.value.address.GetOr("")), Some(l.value.city.GetOr("")),
                       Some(l.value.zip.GetOr("")), Some(l.value.country.GetOr("")),
                       Some(l.value.continent.GetOr("")), l.value.lat, l.value.lng)
  }

  /** The form built from the fetched venue. */
  function InitForm(v: Venue): (f: NewVenue)
    ensures f.name == v.name && f.price == v.price && f.maxGuests == v.maxGuests
    ensures f.description == v.description.GetOr("")
    ensures f.media == v.media.GetOr([])
    ensures f.meta == MetaDefaults(v.meta) && f.location == LocationDefaults(v.location)
  {
    NewVenue(v.name, v.description.GetOr(""), v.price, v.maxGuests, v.media.GetOr([]),
             MetaDefaults(v.meta), LocationDefaults(v.location))
  }

  /** `original[k]`, absent when the venue leaves the property out. */
  function OriginalField(v: Venue, k: FormKey): Option<FieldValue> {
    match k
    case KName => Some(Text(v.name))
    case KDescription => if v.description.Some? then Some(Text(v.description.value)) else None
    case KPrice => Some(Number(v.price))
    case KMaxGuests => Some(Number(v.maxGuests))
    case KMedia => if v.media.Some? then Some(MediaList(v.media.value)) else None
    case KMeta => if v.meta.Some? then Some(Flags(v.meta.value)) else None
    case KLocation => if v.location.Some? then Some(Place(v.location.value)) else None
  }

  /** The serialisations of `form[k]` and `original[k]` differ. */
  predicate Changed(form: NewVenue, original: Venue, k: FormKey) {
    Some(Field(form, k)) != OriginalField(original, k)
  }

  /** `diff` holds exactly the changed keys, each with the form's value. */
  predicate IsDiff(diff: map<FormKey, FieldValue>, form: NewVenue, original: Venue) {
    && (forall k: FormKey :: k in diff <==> Changed(form, original, k))
    && (forall k :: k in diff ==> diff[k] == Field(form, k))
  }

  /** The `forEach` over the form's keys that fills `diff`. */
  method ComputeDiff(form: NewVenue, original: Venue) returns (diff: map<FormKey, FieldValue>)
    ensures IsDiff(diff, form, original)
  {
    diff := map[];
    for i := 0 to |FormKeys|
      invariant forall k: FormKey :: k in diff <==> k in FormKeys[..i] && Changed(form, original, k)
      invariant forall k :: k in diff ==> diff[k] == Field(form, k)
    {
      var k := FormKeys[i];
      assert FormKeys[..i + 1] == FormKeys[..i] + [k];
      if Some(Field(form, k)) != OriginalField(original, k) {
        diff := diff[k := Field(form, k)];
      }
    }
    assert FormKeys[..|FormKeys|] == FormKeys;
    forall k: FormKey ensures k in FormKeys {
      FormKeysComplete(k);
    }
  }

  /** A venue that spells out every optional property, opened and saved
      untouched, sends nothing. */
  lemma UntouchedFormHasNoDiff(v: Venue)
    requires v.description.Some? && v.media.Some? && v.meta.Some? && v.location.Some?
    requires forall k: Amenity :: MetaFlag(v.meta.value, k).Some?
    requires var l := v.location.value;
             l.address.Some? && l.city.Some? && l.zip.Some? && l.country.Some? && l.continent.Some?
    ensures forall k: FormKey :: !Changed(InitForm(v), v, k)
  {
    FlagsDetermineMeta(MetaDefaults(v.meta), v.meta.value);
  }

  /** A venue without a description or without media has that key sent on
      every save, even when the user never touched it: the form holds "" or
      [] where the original has nothing. */
  lemma AbsentPropertiesAlwaysSent(v: Venue)
    ensures v.description.None? ==> Changed(InitForm(v), v, KDescription)
    ensures v.media.None? ==> Changed(InitForm(v), v, KMedia)
    ensures v.meta.None? ==> Changed(InitForm(v), v, KMeta)
    ensures v.location.None? ==> Changed(InitForm(v), v, KLocation)
  {
  }

  /** The alt text a media entry keeps or gets when its URL is edited: its
      own when it has one, else the venue name, else "Venue image n" for
      the entry's 1-based position. */
  function EditedAlt(m: Media, formName: string, i: nat): (alt: string)
    ensures alt != ""
  {
    if Truthy(m.alt) then m.alt.value
    else if formName != "" then formName
    else "Venue image " + NatToString(i + 1)
  }

  /** Typing a new URL into entry `i`. */
  function EditMediaUrl(media: seq<Media>, i: nat, url: string, formName: string): (r: seq<Media>)
    requires i < |media|
    ensures |r| == |media|
    ensures r[i].url == url && r[i].alt == Some(EditedAlt(media[i], formName, i))
    ensures forall j :: 0 <= j < |media| && j != i ==> r[j] == media[j]
  {
    media[i := Media(url, Some(EditedAlt(media[i], formName, i)))]
  }

  /** Once an entry has been edited its alt text is fixed: later edits of
      its URL keep it, whatever the name has become. */
  lemma AltFixedByFirstEdit(media: seq<Media>, i: nat, u1: string, u2: string, n1: string, n2: string)
    requires i < |media|
    ensures EditMediaUrl(EditMediaUrl(media, i, u1, n1), i, u2, n2) == EditMediaUrl(media, i, u2, n1)
  {
  }

  /** `media.filter((_, idx) => idx !== i)` */
  function RemoveMedia(media: seq<Media>, i: nat): seq<Media> {
    FilterByFlags(media, seq(|media|, j requires 0 <= j < |media| => j != i))
  }

  lemma {:induction false} DropIndex<T>(s: seq<T>, flags: seq<bool>, i: nat)
    requires i < |s| && |flags| == |s|
    requires forall j :: 0 <= j < |s| ==> flags[j] == (j != i)
    ensures FilterByFlags(s, flags) == s[..i] + s[i + 1..]
    decreases |s|
  {
    if i == 0 {
      FilterByFlagsAllTrue(s[1..], flags[1..]);
    } else {
      DropIndex(s[1..], flags[1..], i - 1);
      assert s[..i] == [s[0]] + s[1..][..i - 1];
      assert s[i + 1..] == s[1..][i..];
    }
  }

  /** Removing entry `i` deletes exactly that entry and keeps the order of
      the rest; the cover photo, which has no remove button, stays first. */
  lemma RemoveMediaSpec(media: seq<Media>, i: nat)
    requires 0 < i < |media|
    ensures RemoveMedia(media, i) == media[..i] + media[i + 1..]
    ensures |RemoveMedia(media, i)| == |media| - 1 && RemoveMedia(media, i)[0] == media[0]
  {
    DropIndex(media, seq(|media|, j requires 0 <= j < |media| => j != i), i);
  }

  /** "Add More Images", offered while there are fewer than five: an empty
      URL with the venue name, or "Venue image n", as its alt text. */
  function AddMedia(media: seq<Media>, formName: string): (r: seq<Media>)
    requires |media| < 5
    ensures |r| == |media| + 1 <= 5
    ensures r[..|media|] == media
    ensures r[|media|].url == ""
    ensures r[|media|].alt == Some(if formName != "" then formName else "Venue image " + NatToString(|media| + 1))
  {
    media + [Media("", Some(if formName != "" then formName else "Venue image " + NatToString(|media| + 1)))]
  }

  class EditVenuePage {
    const id: Option<string>
    var original: Option<Venue>
    var form: Option<NewVenue>
    var saving: bool
    var error: Option<string>
    var done: bool
    /** The `updateVenuePut(id, diff)` calls made, in order. */
    var puts: seq<(string, map<FormKey, FieldValue>)>

    constructor (routeId: Option<string>)
      ensures id == routeId && original.None? && form.None?
      ensures !saving && error.None? && !done && puts == []
    {
      id := routeId;
      original, form := None, None;
      saving, error, done, puts := false, None, false, [];
    }

    /** The load effect: nothing without an id; a failed fetch shows its
        message; a venue the user may not edit sends them home; otherwise
        the original is kept and the form built from it. */
    method Load(fetched: Outcome<Venue>, profileName: string, venueManager: bool)
      returns (sentHome: bool)
      modifies this`original, this`form, this`error
      ensures !Truthy(id) ==> !sentHome && unchanged(this)
      ensures Truthy(id) && fetched.Threw? ==>
                !sentHome && error == fetched.message && original == old(original) && form == old(form)
      ensures Truthy(id) && fetched.Done? && SentHome(fetched.value, profileName, venueManager) ==>
                sentHome && unchanged(this)
      ensures Truthy(id) && fetched.Done? && !SentHome(fetched.value, profileName, venueManager) ==>
                && !sentHome && error == old(error)
                && original == Some(fetched.value) && form == Some(InitForm(fetched.value))
    {
      sentHome := false;
      if !Truthy(id) {
        return;
      }
      match fetched {
        case Threw(message) =>
          error := message;
        case Done(v) =>
          if SentHome(v, profileName, venueManager) {
            sentHome := true;
            return;
          }
          original := Some(v);
          form := Some(InitForm(v));
      }
    }

    /** `updateField(key, value)`: nothing before the form exists. */
    method UpdateField(k: FormKey, value: FieldValue)
      requires Fits(k, value)
      modifies this`form
      ensures old(form).None? ==> form.None?
      ensures old(form).Some? ==> form == Some(SetField(old(form).value, k, value))
    {
      if form.Some? {
        form := Some(SetField(form.value, k, value));
      }
    }

    /** `handleSave`. Without an id, a form and an original nothing
        happens. With no changed key the page reports done and sends
        nothing. Otherwise the changed keys, and only they, are sent; a
        rejection shows its message. Saving ends either way. */
    method HandleSave(put: Outcome<()>)
      modifies this`saving, this`error, this`done, this`puts
      ensures !(Truthy(id) && form.Some? && original.Some?) ==>
                saving == old(saving) && error == old(error) && done == old(done) && puts == old(puts)
      ensures Truthy(id) && form.Some? && original.Some? ==>
                && !saving
                && ((forall k: FormKey :: !Changed(form.value, original.value, k)) ==>
                      done == true && error.None? && puts == old(puts))
                && ((exists k: FormKey :: Changed(form.value, original.value, k)) ==>
                      && |puts| == |old(puts)| + 1 && puts[..|old(puts)|] == old(puts)
                      && puts[|old(puts)|].0 == id.value
                      && IsDiff(puts[|old(puts)|].1, form.value, original.value)
                      && (put.Done? ==> done && error.None?)
                      && (put.Threw? ==> done == old(done) && error == put.message))
    {
      if !Truthy(id) || form.None? || original.None? {
        return;
      }
      saving := true;
      error := None;
      var diff := ComputeDiff(form.value, original.value);
      if |diff| == 0 {
        done := true;
        saving := false;
        return;
      }
      assert diff.Keys != {};
      var k0 :| k0 in diff.Keys;
      assert Changed(form.value, original.value, k0);
      puts := puts + [(id.value, diff)];
      if put.Done? {
        done := true;
      } else {
        error := put.message;
      }
      saving := false;
    }
  }
}
