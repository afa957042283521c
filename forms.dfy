/** The submitted form of a request (`request.form`, a multi-valued
    dictionary) and the way each handler reads it: `form[key]` for a required
    field, `form.getlist(key)` for genres, `key in form` for a checkbox and
    `form.get('search_term', '')` for the search box. */
module Forms {
  import opened Records

  /** The submitted (key, value) pairs, in the order the browser sent them. */
  datatype Form = Form(pairs: seq<(string, string)>)

  /** `key in request.form`. */
  predicate Has(form: Form, key: string)
  {
    exists k :: 0 <= k < |form.pairs| && form.pairs[k].0 == key
  }

  /** `request.form.get(key)`: the first value submitted under `key`. */
  function Get(form: Form, key: string): (r: Option<string>)
    decreases |form.pairs|
  {
    if form.pairs == [] then None
    else if form.pairs[0].0 == key then Some(form.pairs[0].1)
    else Get(Form(form.pairs[1..]), key)
  }

  /** `request.form.getlist(key)`: every value submitted under `key`, in order. */
  function GetList(form: Form, key: string): (r: seq<string>)
    decreases |form.pairs|
  {
    if form.pairs == [] then []
    else if form.pairs[0].0 == key then [form.pairs[0].1] + GetList(Form(form.pairs[1..]), key)
    else GetList(Form(form.pairs[1..]), key)
  }

  /** The three ways of reading a key agree: a key is present exactly when
      `get` finds a value, exactly when `getlist` is non-empty, and `get`
      gives the first value of `getlist`. */
  lemma {:induction false} ReadingsAgree(form: Form, key: string)
    ensures Has(form, key) <==> Get(form, key).Some?
    ensures Has(form, key) <==> GetList(form, key) != []
    ensures Get(form, key).Some? ==> Get(form, key).value == GetList(form, key)[0]
    decreases |form.pairs|
  {
    if form.pairs != [] {
      var rest := Form(form.pairs[1..]);
      ReadingsAgree(rest, key);
      if Has(rest, key) {
        var k :| 0 <= k < |rest.pairs| && rest.pairs[k].0 == key;
        assert form.pairs[k + 1].0 == key;
      }
      if Has(form, key) && form.pairs[0].0 != key {
        var k :| 0 <= k < |form.pairs| && form.pairs[k].0 == key;
        assert rest.pairs[k - 1].0 == key;
      }
    }
  }

  /** Every value read back is one the browser submitted under that key, and
      `get` finds nothing only when no pair has the key. */
  lemma {:induction false} ReadingsComeFromPairs(form: Form, key: string)
    ensures Get(form, key).Some? ==> (key, Get(form, key).value) in form.pairs
    ensures Get(form, key).None? ==> forall p :: p in form.pairs ==> p.0 != key
    ensures |GetList(form, key)| <= |form.pairs|
    ensures forall v :: v in GetList(form, key) ==> (key, v) in form.pairs
    decreases |form.pairs|
  {
    if form.pairs != [] {
      var rest := Form(form.pairs[1..]);
      ReadingsComeFromPairs(rest, key);
      assert form.pairs == [form.pairs[0]] + rest.pairs;
    }
  }

  /** The outcome of reading a form: the fields, or the first required key
      that is missing (Flask answers that request with 400 Bad Request). */
  datatype Bound<T> = Bound(value: T) | MissingField(key: string) {
    predicate IsFailure() { MissingField? }

    function PropagateFailure<U>(): Bound<U>
      requires MissingField?
    {
      MissingField(key)
    }

    function Extract(): T
      requires Bound?
    {
      value
    }
  }

  /** `request.form[key]`. */
  function Required(form: Form, key: string): (r: Bound<string>)
    ensures r.Bound? <==> Has(form, key)
    ensures r.Bound? ==> Some(r.value) == Get(form, key)
    ensures r.MissingField? ==> r.key == key
  {
    ReadingsAgree(form, key);
    match Get(form, key)
    case Some(v) => Bound(v)
    case None => MissingField(key)
  }

  /** The search box: `request.form.get('search_term', '')`. */
  function SearchTerm(form: Form): (term: string)
    ensures !Has(form, "search_term") ==> term == ""
    ensures Has(form, "search_term") ==> Some(term) == Get(form, "search_term")
  {
    ReadingsAgree(form, "search_term");
    match Get(form, "search_term")
    case Some(t) => t
    case None => ""
  }

  /** The fields of the venue create and edit forms. */
  datatype VenueSubmission = VenueSubmission(
    name: string,
    city: string,
    state: string,
    address: string,
    phone: string,
    genres: seq<string>,
    imageLink: string,
    facebookLink: string,
    websiteLink: string,
    seekingTalent: bool,
    seekingDescription: string)

  /** The fields of the artist create and edit forms. */
  datatype ArtistSubmission = ArtistSubmission(
    name: string,
    city: string,
    state: string,
    phone: string,
    genres: seq<string>,
    imageLink: string,
    facebookLink: string,
    websiteLink: string,
    seekingVenue: bool,
    seekingDescription: string)

  /** The fields of the show create form, as submitted text. */
  datatype ShowSubmission = ShowSubmission(artistId: string, venueId: string, startTime: string)

  const VenueRequiredKeys: seq<string> :=
    ["name", "city", "state", "address", "phone", "image_link",
     "facebook_link", "website_link", "seeking_description"]

  const ArtistRequiredKeys: seq<string> :=
    ["name", "city", "state", "phone", "image_link",
     "facebook_link", "website_link", "seeking_description"]

  const ShowRequiredKeys: seq<string> := ["artist_id", "venue_id", "start_time"]

  predicate HasAll(form: Form, keys: seq<string>)
  {
    forall key :: key in keys ==> Has(form, key)
  }

  /** The reads at the top of the venue create and edit handlers, in the
      handlers' order. */
  function ReadVenueForm(form: Form): (r: Bound<VenueSubmission>)
    ensures r.Bound? <==> HasAll(form, VenueRequiredKeys)
    ensures r.MissingField? ==> r.key in VenueRequiredKeys && !Has(form, r.key)
    ensures r.Bound? ==>
      && Some(r.value.name) == Get(form, "name")
      && Some(r.value.city) == Get(form, "city")
      && Some(r.value.state) == Get(form, "state")
      && Some(r.value.address) == Get(form, "address")
      && Some(r.value.phone) == Get(form, "phone")
      && r.value.genres == GetList(form, "genres")
      && Some(r.value.imageLink) == Get(form, "image_link")
      && Some(r.value.facebookLink) == Get(form, "facebook_link")
      && Some(r.value.websiteLink) == Get(form, "website_link")
      && (r.value.seekingTalent <==> Has(form, "seeking_talent"))
      && Some(r.value.seekingDescription) == Get(form, "seeking_description")
  {
    var name :- Required(form, "name");
    var city :- Required(form, "city");
    var state :- Required(form, "state");
    var address :- Required(form, "address");
    var phone :- Required(form, "phone");
    var genres := GetList(form, "genres");
    var imageLink :- Required(form, "image_link");
    var facebookLink :- Required(form, "facebook_link");
    var websiteLink :- Required(form, "website_link");
    var seekingTalent := Has(form, "seeking_talent");
    var seekingDescription :- Required(form, "seeking_description");
    Bound(VenueSubmission(name, city, state, address, phone, genres, imageLink,
                          facebookLink, websiteLink, seekingTalent, seekingDescription))
  }

  /** The reads at the top of the artist create and edit handlers. */
  function ReadArtistForm(form: Form): (r: Bound<ArtistSubmission>)
    ensures r.Bound? <==> HasAll(form, ArtistRequiredKeys)
    ensures r.MissingField? ==> r.key in ArtistRequiredKeys && !Has(form, r.key)
    ensures r.Bound? ==>
      && Some(r.value.name) == Get(form, "name")
      && Some(r.value.city) == Get(form, "city")
      && Some(r.value.state) == Get(form, "state")
      && Some(r.value.phone) == Get(form, "phone")
      && r.value.genres == GetList(form, "genres")
      && Some(r.value.imageLink) == Get(form, "image_link")
      && Some(r.value.facebookLink) == Get(form, "facebook_link")
      && Some(r.value.websiteLink) == Get(form, "website_link")
      && (r.value.seekingVenue <==> Has(form, "seeking_venue"))
      && Some(r.value.seekingDescription) == Get(form, "seeking_description")
  {
    var name :- Required(form, "name");
    var city :- Required(form, "city");
    var state :- Required(form, "state");
    var phone :- Required(form, "phone");
    var genres := GetList(form, "genres");
    var imageLink :- Required(form, "image_link");
    var facebookLink :- Required(form, "facebook_link");
    var websiteLink :- Required(form, "website_link");
    var seekingVenue := Has(form, "seeking_venue");
    var seekingDescription :- Required(form, "seeking_description");
    Bound(ArtistSubmission(name, city, state, phone, genres, imageLink,
                           facebookLink, websiteLink, seekingVenue, seekingDescription))
  }

  /** The reads at the top of the show create handler. */
  function ReadShowForm(form: Form): (r: Bound<ShowSubmission>)
    ensures r.Bound? <==> HasAll(form, ShowRequiredKeys)
    ensures r.MissingField? ==> r.key in ShowRequiredKeys && !Has(form, r.key)
    ensures r.Bound? ==>
      && Some(r.value.artistId) == Get(form, "artist_id")
      && Some(r.value.venueId) == Get(form, "venue_id")
      && Some(r.value.startTime) == Get(form, "start_time")
  {
    var artistId :- Required(form, "artist_id");
    var venueId :- Required(form, "venue_id");
    var startTime :- Required(form, "start_time");
    Bound(ShowSubmission(artistId, venueId, startTime))
  }
}
