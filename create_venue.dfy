/** The create-venue page (src/pages/venues/CreateVenue.tsx): its starting
    form, the amenity toggles, the comma-separated media field, and the
    message a failed create shows. Every update is a new form value. */
module CreateVenue {
  import opened Wrappers
  import opened Strings
  import opened VenueTypes
  import opened VenueForm

  /** The form the page opens with. */
  const InitialForm: NewVenue :=
    NewVenue("", "", 0, 1, [], VenueMeta(Some(false), Some(false), Some(false), Some(false)),
             EmptyLocation)

  /** Every amenity flag is a definite boolean. */
  predicate FlagsSet(m: VenueMeta) {
    forall k: Amenity :: MetaFlag(m, k).Some?
  }

  /** The starting form: blank text, price 0, room for one guest, no media,
      every amenity off, and a blank address. */
  lemma InitialFormSpec()
    ensures InitialForm.name == "" && InitialForm.description == ""
    ensures InitialForm.price == 0 && InitialForm.maxGuests == 1 && InitialForm.media == []
    ensures forall k: Amenity :: MetaFlag(InitialForm.meta, k) == Some(false)
    ensures InitialForm.location == EmptyLocation
  {
  }

  /** `toggleMeta(k)`: the flag becomes `!flag`, where an absent flag
      counts as false. */
  function ToggleMeta(form: NewVenue, k: Amenity): (r: NewVenue)
    ensures MetaFlag(r.meta, k) == Some(MetaFlag(form.meta, k) != Some(true))
    ensures forall j: Amenity :: j != k ==> MetaFlag(r.meta, j) == MetaFlag(form.meta, j)
    ensures forall j: FormKey :: j != KMeta ==> Field(r, j) == Field(form, j)
  {
    form.(meta := WithFlag(form.meta, k, Some(MetaFlag(form.meta, k) != Some(true))))
  }

  /** Toggling a set flag twice gives the form back; toggles keep every
      flag set, so from the starting form this always holds. */
  lemma ToggleTwice(form: NewVenue, k: Amenity)
    requires MetaFlag(form.meta, k).Some?
    ensures ToggleMeta(ToggleMeta(form, k), k) == form
    ensures FlagsSet(form.meta) ==> FlagsSet(ToggleMeta(form, k).meta)
  {
    var once := ToggleMeta(form, k);
    var twice := ToggleMeta(once, k);
    var b := MetaFlag(form.meta, k).value;
    assert MetaFlag(once.meta, k) == Some(!b);
    assert MetaFlag(twice.meta, k) == Some(b);
    forall j: Amenity ensures MetaFlag(twice.meta, j) == MetaFlag(form.meta, j) {
      if j != k {
        assert MetaFlag(once.meta, j) == MetaFlag(form.meta, j);
      }
    }
    FlagsDetermineMeta(twice.meta, form.meta);
  }

  /** The alt text each parsed photo gets: the venue name, or "venue photo"
      while the name is empty. */
  function PhotoAlt(name: string): string {
    if name != "" then name else "venue photo"
  }

  /** The URLs of the comma-separated pieces: each trimmed, empty ones
      dropped. */
  function Urls(pieces: seq<string>): seq<string> {
    if pieces == [] then []
    else (if Trim(pieces[0]) != "" then [Trim(pieces[0])] else []) + Urls(pieces[1..])
  }

  function Photos(urls: seq<string>, alt: string): (r: seq<Media>)
    ensures |r| == |urls|
    ensures forall i :: 0 <= i < |urls| ==> r[i] == Media(urls[i], Some(alt))
  {
    seq(|urls|, i requires 0 <= i < |urls| => Media(urls[i], Some(alt)))
  }

  /** What typing `text` into the media field stores. */
  function ParseMedia(text: string, name: string): seq<Media> {
    Photos(Urls(Split(text, ',')), PhotoAlt(name))
  }

  /** The field shows the stored URLs joined by commas. */
  function MediaText(media: seq<Media>): string {
    Join(seq(|media|, i requires 0 <= i < |media| => media[i].url), ",")
  }

  /** No URL is empty or has edge whitespace, and there are never more URLs
      than pieces. */
  lemma {:induction false} UrlsClean(pieces: seq<string>)
    ensures |Urls(pieces)| <= |pieces|
    ensures forall i :: 0 <= i < |Urls(pieces)| ==> Urls(pieces)[i] != "" && Trimmed(Urls(pieces)[i])
    decreases |pieces|
  {
    if pieces != [] {
      UrlsClean(pieces[1..]);
      var _ := TrimSpec(pieces[0]);
    }
  }

  /** Parsing keeps the pieces' order: it distributes over concatenation. */
  lemma {:induction false} UrlsAppend(a: seq<string>, b: seq<string>)
    ensures Urls(a + b) == Urls(a) + Urls(b)
    decreases |a|
  {
    if a == [] {
      assert a + b == b;
    } else {
      assert (a + b)[0] == a[0] && (a + b)[1..] == a[1..] + b;
      UrlsAppend(a[1..], b);
    }
  }

  /** Clean URLs pass through unchanged. */
  lemma {:induction false} UrlsOfClean(urls: seq<string>)
    requires forall i :: 0 <= i < |urls| ==> urls[i] != "" && Trimmed(urls[i])
    ensures Urls(urls) == urls
    decreases |urls|
  {
    if urls != [] {
      TrimOfTrimmed(urls[0]);
      UrlsOfClean(urls[1..]);
    }
  }

  /** Re-reading the field gives back the URLs it shows, as long as none
      holds a comma, is empty, or has edge whitespace. */
  lemma JoinParseRoundTrip(urls: seq<string>, name: string)
    requires forall i :: 0 <= i < |urls| ==> urls[i] != "" && Trimmed(urls[i]) && ',' !in urls[i]
    ensures ParseMedia(Join(urls, ","), name) == Photos(urls, PhotoAlt(name))
  {
    if urls == [] {
      assert Split("", ',') == [""];
      assert Urls([""]) == [];
    } else {
      SplitJoin(urls, ',');
      assert Join(urls, [',']) == Join(urls, ",");
      UrlsOfClean(urls);
    }
  }

  /** The field round-trips the stored media whenever their URLs are clean;
      only the alt texts are reset. */
  lemma MediaFieldRoundTrip(media: seq<Media>, name: string)
    requires forall i :: 0 <= i < |media| ==>
               media[i].url != "" && Trimmed(media[i].url) && ',' !in media[i].url
    ensures |ParseMedia(MediaText(media), name)| == |media|
    ensures forall i :: 0 <= i < |media| ==>
              ParseMedia(MediaText(media), name)[i] == Media(media[i].url, Some(PhotoAlt(name)))
  {
    var urls := seq(|media|, i requires 0 <= i < |media| => media[i].url);
    JoinParseRoundTrip(urls, name);
  }

  /** The message a rejected create shows: its own, or "Failed to create
      venue"; a created venue shows none. */
  function CreateError(created: Outcome<Venue>): (error: Option<string>)
    ensures created.Done? <==> error.None?
    ensures created.Threw? && created.message.Some? ==> error == created.message
    ensures created.Threw? && created.message.None? ==> error == Some("Failed to create venue")
  {
    if created.Threw? then Some(MessageOr(created, "Failed to create venue")) else None
  }
}
