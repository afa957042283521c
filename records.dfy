/** The three tables of the booking directory (`Venue`, `Artist` and the
    `Shows` association with its own id and start time) held in memory, the
    primary-key lookups the handlers issue with `filter_by(id=...).first()`,
    and the integrity the schema's keys impose on them. */
module Records {

  datatype Option<T> = None | Some(value: T)

  /** One `Venue` row; every column except `id` is written by the forms. */
  datatype Venue = Venue(
    id: int,
    name: string,
    city: string,
    state: string,
    address: string,
    phone: string,
    imageLink: string,
    facebookLink: string,
    genres: seq<string>,
    seekingTalent: bool,
    seekingDescription: string,
    websiteLink: string)

  /** One `Artist` row. */
  datatype Artist = Artist(
    id: int,
    name: string,
    city: string,
    state: string,
    phone: string,
    genres: seq<string>,
    imageLink: string,
    facebookLink: string,
    seekingVenue: bool,
    seekingDescription: string,
    websiteLink: string)

  /** One `Shows` row: a booking of an artist at a venue. The start time is
      an integer instant; "now" is compared against it by the views. */
  datatype Show = Show(id: int, artistId: int, venueId: int, startTime: int)

  /** A snapshot of the whole database, each table in its row order. */
  datatype Tables = Tables(venues: seq<Venue>, artists: seq<Artist>, shows: seq<Show>)

  predicate HasVenue(vs: seq<Venue>, id: int)
  {
    exists k :: 0 <= k < |vs| && vs[k].id == id
  }

  predicate HasArtist(artists: seq<Artist>, id: int)
  {
    exists k :: 0 <= k < |artists| && artists[k].id == id
  }

  /** `Venue.query.filter_by(id=id).first()`: the first row with that id, or
      nothing when there is none. */
  function FindVenue(vs: seq<Venue>, id: int): (r: Option<Venue>)
    ensures r.Some? <==> HasVenue(vs, id)
    ensures r.Some? ==> r.value in vs && r.value.id == id
  {
    if vs == [] then None
    else if vs[0].id == id then Some(vs[0])
    else
      var r := FindVenue(vs[1..], id);
      assert HasVenue(vs[1..], id) ==> HasVenue(vs, id) by {
        if HasVenue(vs[1..], id) {
          var k :| 0 <= k < |vs[1..]| && vs[1..][k].id == id;
          assert vs[k + 1].id == id;
        }
      }
      assert HasVenue(vs, id) ==> HasVenue(vs[1..], id) by {
        if HasVenue(vs, id) {
          var k :| 0 <= k < |vs| && vs[k].id == id;
          assert vs[1..][k - 1].id == id;
        }
      }
      r
  }

  /** `Artist.query.filter_by(id=id).first()`. */
  function FindArtist(artists: seq<Artist>, id: int): (r: Option<Artist>)
    ensures r.Some? <==> HasArtist(artists, id)
    ensures r.Some? ==> r.value in artists && r.value.id == id
  {
    if artists == [] then None
    else if artists[0].id == id then Some(artists[0])
    else
      var r := FindArtist(artists[1..], id);
      assert HasArtist(artists[1..], id) ==> HasArtist(artists, id) by {
        if HasArtist(artists[1..], id) {
          var k :| 0 <= k < |artists[1..]| && artists[1..][k].id == id;
          assert artists[k + 1].id == id;
        }
      }
      assert HasArtist(artists, id) ==> HasArtist(artists[1..], id) by {
        if HasArtist(artists, id) {
          var k :| 0 <= k < |artists| && artists[k].id == id;
          assert artists[1..][k - 1].id == id;
        }
      }
      r
  }

  predicate VenueIdsUnique(vs: seq<Venue>)
  {
    forall i, j :: 0 <= i < j < |vs| ==> vs[i].id != vs[j].id
  }

  predicate ArtistIdsUnique(artists: seq<Artist>)
  {
    forall i, j :: 0 <= i < j < |artists| ==> artists[i].id != artists[j].id
  }

  predicate ShowIdsUnique(ss: seq<Show>)
  {
    forall i, j :: 0 <= i < j < |ss| ==> ss[i].id != ss[j].id
  }

  /** True when some show still refers to the venue with this id. */
  predicate VenueBooked(ss: seq<Show>, venueId: int)
  {
    exists s :: s in ss && s.venueId == venueId
  }

  /** What the schema guarantees of the stored tables: primary keys are
      unique and every show refers to an existing venue and an existing
      artist (the foreign keys on `Shows.venue_id` and `Shows.artist_id`). */
  predicate Consistent(t: Tables)
  {
    && VenueIdsUnique(t.venues)
    && ArtistIdsUnique(t.artists)
    && ShowIdsUnique(t.shows)
    && (forall s :: s in t.shows ==> HasVenue(t.venues, s.venueId) && HasArtist(t.artists, s.artistId))
  }

  /** With unique ids the lookup by id returns exactly the row that has it. */
  lemma FindVenueAt(vs: seq<Venue>, k: int)
    requires VenueIdsUnique(vs) && 0 <= k < |vs|
    ensures FindVenue(vs, vs[k].id) == Some(vs[k])
  {
  }

  /** With unique ids the lookup by id returns exactly the row that has it. */
  lemma FindArtistAt(artists: seq<Artist>, k: int)
    requires ArtistIdsUnique(artists) && 0 <= k < |artists|
    ensures FindArtist(artists, artists[k].id) == Some(artists[k])
  {
  }
}
