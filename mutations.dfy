/** The mutation handlers: create, edit and delete a venue, create and edit
    an artist, create a show. Each reads its form, then either commits its
    whole change to the store or rolls it back, and ends with one flashed
    message. Whether the database accepts the commit is a parameter, and so
    are the conversions of submitted text to integers and instants that the
    database performs. */
module Mutations {
  import opened Seqs
  import opened Records
  import opened Forms
  import opened Messages

  /** The row a venue form describes, under the given primary key. */
  function VenueFromForm(id: int, f: VenueSubmission): Venue
  {
    Venue(id, f.name, f.city, f.state, f.address, f.phone, f.imageLink,
          f.facebookLink, f.genres, f.seekingTalent, f.seekingDescription, f.websiteLink)
  }

  /** The row an artist form describes, under the given primary key. */
  function ArtistFromForm(id: int, f: ArtistSubmission): Artist
  {
    Artist(id, f.name, f.city, f.state, f.phone, f.genres, f.imageLink,
           f.facebookLink, f.seekingVenue, f.seekingDescription, f.websiteLink)
  }

  // The committed effect of each mutation on the tables.

  function AddVenue(t: Tables, v: Venue): Tables { t.(venues := t.venues + [v]) }
  function AddArtist(t: Tables, a: Artist): Tables { t.(artists := t.artists + [a]) }
  function AddShow(t: Tables, s: Show): Tables { t.(shows := t.shows + [s]) }

  /** The venue table with the row whose id is `v.id` replaced by `v`. */
  function ReplaceVenue(vs: seq<Venue>, v: Venue): seq<Venue>
  {
    seq(|vs|, k requires 0 <= k < |vs| => if vs[k].id == v.id then v else vs[k])
  }

  function ReplaceArtist(artists: seq<Artist>, a: Artist): seq<Artist>
  {
    seq(|artists|, k requires 0 <= k < |artists| => if artists[k].id == a.id then a else artists[k])
  }

  function EditVenue(t: Tables, v: Venue): Tables { t.(venues := ReplaceVenue(t.venues, v)) }
  function EditArtist(t: Tables, a: Artist): Tables { t.(artists := ReplaceArtist(t.artists, a)) }

  function NotVenue(id: int): Venue -> bool { (v: Venue) => v.id != id }

  /** `Venue.query.filter_by(id=id).delete()`: every venue row with that id goes. */
  function RemoveVenue(t: Tables, id: int): (r: Tables)
    ensures forall v :: v in r.venues <==> v in t.venues && v.id != id
    ensures |r.venues| <= |t.venues|
  {
    t.(venues := Filter(NotVenue(id), t.venues))
  }

  lemma {:induction false} FilterKeepsVenueIdsUnique(keep: Venue -> bool, vs: seq<Venue>)
    requires VenueIdsUnique(vs)
    ensures VenueIdsUnique(Filter(keep, vs))
  {
    if vs != [] {
      var rest := vs[1..];
      assert VenueIdsUnique(rest) by {
        forall i, j | 0 <= i < j < |rest| ensures rest[i].id != rest[j].id {
          assert rest[i] == vs[i + 1] && rest[j] == vs[j + 1];
        }
      }
      FilterKeepsVenueIdsUnique(keep, rest);
      if keep(vs[0]) {
        var r := Filter(keep, vs);
        var fr := Filter(keep, rest);
        assert r == [vs[0]] + fr;
        forall j | 1 <= j < |r| ensures r[0].id != r[j].id {
          assert r[j] == fr[j - 1];
          assert r[j] in rest;
          var m :| 0 <= m < |rest| && rest[m] == r[j];
          assert vs[m + 1] == r[j];
        }
      }
    }
  }

  /** A venue with an id not yet used can be added, and is then found by it. */
  lemma AddVenueKeepsConsistent(t: Tables, v: Venue)
    requires Consistent(t) && !HasVenue(t.venues, v.id)
    ensures Consistent(AddVenue(t, v))
    ensures FindVenue(AddVenue(t, v).venues, v.id) == Some(v)
  {
    var vs := t.venues + [v];
    forall s | s in t.shows ensures HasVenue(vs, s.venueId) {
      var k :| 0 <= k < |t.venues| && t.venues[k].id == s.venueId;
      assert vs[k] == t.venues[k];
    }
    assert VenueIdsUnique(vs) by {
      forall i, j | 0 <= i < j < |vs| ensures vs[i].id != vs[j].id {
        if j == |t.venues| {
          assert vs[i] == t.venues[i];
        } else {
          assert vs[i] == t.venues[i] && vs[j] == t.venues[j];
        }
      }
    }
    FindVenueAt(vs, |t.venues|);
  }

  /** An artist with an id not yet used can be added, and is then found by it. */
  lemma AddArtistKeepsConsistent(t: Tables, a: Artist)
    requires Consistent(t) && !HasArtist(t.artists, a.id)
    ensures Consistent(AddArtist(t, a))
    ensures FindArtist(AddArtist(t, a).artists, a.id) == Some(a)
  {
    var artists := t.artists + [a];
    forall s | s in t.shows ensures HasArtist(artists, s.artistId) {
      var k :| 0 <= k < |t.artists| && t.artists[k].id == s.artistId;
      assert artists[k] == t.artists[k];
    }
    assert ArtistIdsUnique(artists) by {
      forall i, j | 0 <= i < j < |artists| ensures artists[i].id != artists[j].id {
        if j == |t.artists| {
          assert artists[i] == t.artists[i];
        } else {
          assert artists[i] == t.artists[i] && artists[j] == t.artists[j];
        }
      }
    }
    FindArtistAt(artists, |t.artists|);
  }

  /** A show with a fresh id that refers to an existing venue and artist keeps
      the tables consistent. */
  lemma AddShowKeepsConsistent(t: Tables, s: Show)
    requires Consistent(t)
    requires HasVenue(t.venues, s.venueId) && HasArtist(t.artists, s.artistId)
    requires forall x :: x in t.shows ==> x.id != s.id
    ensures Consistent(AddShow(t, s))
  {
  }

  /** Editing overwrites the row with that id by exactly the form's record
      under the same id; every other row and table stays as it was. */
  lemma EditVenueOverwrites(t: Tables, id: int, f: VenueSubmission)
    requires Consistent(t) && HasVenue(t.venues, id)
    ensures var e := EditVenue(t, VenueFromForm(id, f));
      && Consistent(e)
      && FindVenue(e.venues, id) == Some(VenueFromForm(id, f))
      && |e.venues| == |t.venues|
      && (forall k :: 0 <= k < |t.venues| && t.venues[k].id != id ==> e.venues[k] == t.venues[k])
      && e.artists == t.artists && e.shows == t.shows
  {
    var v := VenueFromForm(id, f);
    var vs := ReplaceVenue(t.venues, v);
    assert forall k :: 0 <= k < |vs| ==> vs[k].id == t.venues[k].id;
    forall s | s in t.shows ensures HasVenue(vs, s.venueId) {
      var k :| 0 <= k < |t.venues| && t.venues[k].id == s.venueId;
      assert vs[k].id == s.venueId;
    }
    var k0 :| 0 <= k0 < |t.venues| && t.venues[k0].id == id;
    assert vs[k0] == v;
    FindVenueAt(vs, k0);
  }

  /** Editing an artist overwrites exactly the row with that id. */
  lemma EditArtistOverwrites(t: Tables, id: int, f: ArtistSubmission)
    requires Consistent(t) && HasArtist(t.artists, id)
    ensures var e := EditArtist(t, ArtistFromForm(id, f));
      && Consistent(e)
      && FindArtist(e.artists, id) == Some(ArtistFromForm(id, f))
      && |e.artists| == |t.artists|
      && (forall k :: 0 <= k < |t.artists| && t.artists[k].id != id ==> e.artists[k] == t.artists[k])
      && e.venues == t.venues && e.shows == t.shows
  {
    var a := ArtistFromForm(id, f);
    var artists := ReplaceArtist(t.artists, a);
    assert forall k :: 0 <= k < |artists| ==> artists[k].id == t.artists[k].id;
    forall s | s in t.shows ensures HasArtist(artists, s.artistId) {
      var k :| 0 <= k < |t.artists| && t.artists[k].id == s.artistId;
      assert artists[k].id == s.artistId;
    }
    var k0 :| 0 <= k0 < |t.artists| && t.artists[k0].id == id;
    assert artists[k0] == a;
    FindArtistAt(artists, k0);
  }

  /** Removing a venue no show refers to keeps the tables consistent; the
      venue is gone and every other venue is kept. */
  lemma RemoveVenueSpec(t: Tables, id: int)
    requires Consistent(t) && !VenueBooked(t.shows, id)
    ensures var r := RemoveVenue(t, id);
      && Consistent(r)
      && !HasVenue(r.venues, id)
      && (forall v :: v in r.venues <==> v in t.venues && v.id != id)
      && r.artists == t.artists && r.shows == t.shows
  {
    var r := RemoveVenue(t, id);
    FilterKeepsVenueIdsUnique(NotVenue(id), t.venues);
    forall s | s in t.shows ensures HasVenue(r.venues, s.venueId) {
      var k :| 0 <= k < |t.venues| && t.venues[k].id == s.venueId;
      var w := t.venues[k];
      assert w in r.venues;
      var m :| 0 <= m < |r.venues| && r.venues[m] == w;
    }
    forall m | 0 <= m < |r.venues| ensures r.venues[m].id != id {
      assert r.venues[m] in r.venues;
    }
  }

  /** Deleting an id that no venue has changes nothing, yet it commits. */
  lemma RemovingAbsentVenueChangesNothing(t: Tables, id: int)
    requires !HasVenue(t.venues, id)
    ensures RemoveVenue(t, id) == t
  {
    forall v | v in t.venues ensures NotVenue(id)(v) {
      var k :| 0 <= k < |t.venues| && t.venues[k] == v;
    }
    FilterAll(NotVenue(id), t.venues);
  }

  /** The in-memory database and the primary-key sequences of its tables. */
  class Store {
    var venues: seq<Venue>
    var artists: seq<Artist>
    var shows: seq<Show>
    var nextVenueId: int
    var nextArtistId: int
    var nextShowId: int

    function Snapshot(): Tables
      reads this
    {
      Tables(venues, artists, shows)
    }

    /** The tables are consistent and every id is below its sequence's next value. */
    ghost predicate Valid()
      reads this
    {
      && Consistent(Snapshot())
      && (forall v :: v in venues ==> v.id < nextVenueId)
      && (forall a :: a in artists ==> a.id < nextArtistId)
      && (forall s :: s in shows ==> s.id < nextShowId)
    }

    constructor ()
      ensures Valid() && Snapshot() == Tables([], [], [])
    {
      venues, artists, shows := [], [], [];
      nextVenueId, nextArtistId, nextShowId := 1, 1, 1;
    }

    /** `create_venue_submission()`. */
    method CreateVenueSubmission(form: Form, dbAccepts: bool) returns (outcome: Outcome)
      requires Valid()
      modifies this
      ensures Valid()
      ensures nextArtistId == old(nextArtistId) && nextShowId == old(nextShowId)
      ensures ReadVenueForm(form).MissingField? ==>
        && outcome == BadRequest(ReadVenueForm(form).key)
        && Snapshot() == old(Snapshot()) && nextVenueId == old(nextVenueId)
      ensures ReadVenueForm(form).Bound? ==>
        var f := ReadVenueForm(form).value;
        && outcome == Flashed(if dbAccepts then VenueListed(f.name) else VenueNotListed(f.name))
        && Snapshot() == (if dbAccepts then AddVenue(old(Snapshot()), VenueFromForm(old(nextVenueId), f))
                          else old(Snapshot()))
        && nextVenueId == (if dbAccepts then old(nextVenueId) + 1 else old(nextVenueId))
    {
      var read := ReadVenueForm(form);
      if read.MissingField? {
        return BadRequest(read.key);
      }
      var f := read.value;
      if dbAccepts {
        var venue := VenueFromForm(nextVenueId, f);
        AddVenueKeepsConsistent(Snapshot(), venue);
        venues := venues + [venue];
        nextVenueId := nextVenueId + 1;
        outcome := Flashed(VenueListed(f.name));
      } else {
        outcome := Flashed(VenueNotListed(f.name));
      }
    }

    /** `edit_venue_submission(venue_id)`: the loaded row gets every form
        field assigned; a missing row fails like a refused commit. */
    method EditVenueSubmission(venueId: int, form: Form, dbAccepts: bool) returns (outcome: Outcome)
      requires Valid()
      modifies this
      ensures Valid()
      ensures nextVenueId == old(nextVenueId) && nextArtistId == old(nextArtistId) && nextShowId == old(nextShowId)
      ensures ReadVenueForm(form).MissingField? ==>
        outcome == BadRequest(ReadVenueForm(form).key) && Snapshot() == old(Snapshot())
      ensures ReadVenueForm(form).Bound? ==>
        var f := ReadVenueForm(form).value;
        var ok := dbAccepts && HasVenue(old(venues), venueId);
        && outcome == Flashed(if ok then VenueUpdated(f.name) else VenueNotUpdated(f.name))
        && Snapshot() == (if ok then EditVenue(old(Snapshot()), VenueFromForm(venueId, f)) else old(Snapshot()))
    {
      var read := ReadVenueForm(form);
      if read.MissingField? {
        return BadRequest(read.key);
      }
      var f := read.value;
      var found := FindVenue(venues, venueId);
      if found.None? || !dbAccepts {
        return Flashed(VenueNotUpdated(f.name));
      }
      var venue := found.value;
      venue := venue.(name := f.name);
      venue := venue.(city := f.city);
      venue := venue.(state := f.state);
      venue := venue.(address := f.address);
      venue := venue.(phone := f.phone);
      venue := venue.(genres := f.genres);
      venue := venue.(imageLink := f.imageLink);
      venue := venue.(facebookLink := f.facebookLink);
      venue := venue.(websiteLink := f.websiteLink);
      venue := venue.(seekingTalent := f.seekingTalent);
      venue := venue.(seekingDescription := f.seekingDescription);
      assert venue == VenueFromForm(venueId, f);
      EditVenueOverwrites(Snapshot(), venueId, f);
      venues := ReplaceVenue(venues, venue);
      outcome := Flashed(VenueUpdated(f.name));
    }

    /** `delete_venue(venue_id)`: the id arrives as text. The delete
        statement fails when the id is not an integer or a show still refers
        to the venue (the foreign key on `Shows.venue_id`), and so does the
        commit when the database refuses it; an id no venue has deletes
        nothing and still succeeds. */
    method DeleteVenue(venueId: string, toInt: string -> Option<int>, dbAccepts: bool) returns (outcome: Outcome)
      requires Valid()
      modifies this
      ensures Valid()
      ensures nextVenueId == old(nextVenueId) && nextArtistId == old(nextArtistId) && nextShowId == old(nextShowId)
      ensures var id := toInt(venueId);
        var ok := dbAccepts && id.Some? && !VenueBooked(old(shows), id.value);
        && outcome == Flashed(if ok then VenueDeleted else VenueNotDeleted)
        && Snapshot() == (if ok then RemoveVenue(old(Snapshot()), id.value) else old(Snapshot()))
    {
      var id := toInt(venueId);
      if !dbAccepts || id.None? || VenueBooked(shows, id.value) {
        return Flashed(VenueNotDeleted);
      }
      RemoveVenueSpec(Snapshot(), id.value);
      venues := Filter(NotVenue(id.value), venues);
      outcome := Flashed(VenueDeleted);
    }

    /** `create_artist_submission()`. */
    method CreateArtistSubmission(form: Form, dbAccepts: bool) returns (outcome: Outcome)
      requires Valid()
      modifies this
      ensures Valid()
      ensures nextVenueId == old(nextVenueId) && nextShowId == old(nextShowId)
      ensures ReadArtistForm(form).MissingField? ==>
        && outcome == BadRequest(ReadArtistForm(form).key)
        && Snapshot() == old(Snapshot()) && nextArtistId == old(nextArtistId)
      ensures ReadArtistForm(form).Bound? ==>
        var f := ReadArtistForm(form).value;
        && outcome == Flashed(if dbAccepts then ArtistListed(f.name) else ArtistNotListed(f.name))
        && Snapshot() == (if dbAccepts then AddArtist(old(Snapshot()), ArtistFromForm(old(nextArtistId), f))
                          else old(Snapshot()))
        && nextArtistId == (if dbAccepts then old(nextArtistId) + 1 else old(nextArtistId))
    {
      var read := ReadArtistForm(form);
      if read.MissingField? {
        return BadRequest(read.key);
      }
      var f := read.value;
      if dbAccepts {
        var artist := ArtistFromForm(nextArtistId, f);
        AddArtistKeepsConsistent(Snapshot(), artist);
        artists := artists + [artist];
        nextArtistId := nextArtistId + 1;
        outcome := Flashed(ArtistListed(f.name));
      } else {
        outcome := Flashed(ArtistNotListed(f.name));
      }
    }

    /** `edit_artist_submission(artist_id)`. */
    method EditArtistSubmission(artistId: int, form: Form, dbAccepts: bool) returns (outcome: Outcome)
      requires Valid()
      modifies this
      ensures Valid()
      ensures nextVenueId == old(nextVenueId) && nextArtistId == old(nextArtistId) && nextShowId == old(nextShowId)
      ensures ReadArtistForm(form).MissingField? ==>
        outcome == BadRequest(ReadArtistForm(form).key) && Snapshot() == old(Snapshot())
      ensures ReadArtistForm(form).Bound? ==>
        var f := ReadArtistForm(form).value;
        var ok := dbAccepts && HasArtist(old(artists), artistId);
        && outcome == Flashed(if ok then ArtistUpdated(f.name) else ArtistNotUpdated(f.name))
        && Snapshot() == (if ok then EditArtist(old(Snapshot()), ArtistFromForm(artistId, f)) else old(Snapshot()))
    {
      var read := ReadArtistForm(form);
      if read.MissingField? {
        return BadRequest(read.key);
      }
      var f := read.value;
      var found := FindArtist(artists, artistId);
      if found.None? || !dbAccepts {
        return Flashed(ArtistNotUpdated(f.name));
      }
      var artist := found.value;
      artist := artist.(name := f.name);
      artist := artist.(city := f.city);
      artist := artist.(state := f.state);
      artist := artist.(phone := f.phone);
      artist := artist.(genres := f.genres);
      artist := artist.(imageLink := f.imageLink);
      artist := artist.(facebookLink := f.facebookLink);
      artist := artist.(websiteLink := f.websiteLink);
      artist := artist.(seekingVenue := f.seekingVenue);
      artist := artist.(seekingDescription := f.seekingDescription);
      assert artist == ArtistFromForm(artistId, f);
      EditArtistOverwrites(Snapshot(), artistId, f);
      artists := ReplaceArtist(artists, artist);
      outcome := Flashed(ArtistUpdated(f.name));
    }

    /** `create_show_submission()`: the ids and the start time arrive as
        text; the insert fails when one does not convert or when no artist
        or no venue has the given id (the foreign keys of `Shows`). */
    method CreateShowSubmission(form: Form, toInt: string -> Option<int>, toTime: string -> Option<int>,
                                dbAccepts: bool) returns (outcome: Outcome)
      requires Valid()
      modifies this
      ensures Valid()
      ensures nextVenueId == old(nextVenueId) && nextArtistId == old(nextArtistId)
      ensures ReadShowForm(form).MissingField? ==>
        && outcome == BadRequest(ReadShowForm(form).key)
        && Snapshot() == old(Snapshot()) && nextShowId == old(nextShowId)
      ensures ReadShowForm(form).Bound? ==>
        var f := ReadShowForm(form).value;
        var a, v, st := toInt(f.artistId), toInt(f.venueId), toTime(f.startTime);
        var ok := dbAccepts && a.Some? && v.Some? && st.Some? &&
                  HasArtist(old(artists), a.value) && HasVenue(old(venues), v.value);
        && outcome == Flashed(if ok then ShowListed else ShowNotListed)
        && Snapshot() == (if ok then AddShow(old(Snapshot()), Show(old(nextShowId), a.value, v.value, st.value))
                          else old(Snapshot()))
        && nextShowId == (if ok then old(nextShowId) + 1 else old(nextShowId))
    {
      var read := ReadShowForm(form);
      if read.MissingField? {
        return BadRequest(read.key);
      }
      var f := read.value;
      var artistId, venueId, startTime := toInt(f.artistId), toInt(f.venueId), toTime(f.startTime);
      if !dbAccepts || artistId.None? || venueId.None? || startTime.None?
         || !HasArtist(artists, artistId.value) || !HasVenue(venues, venueId.value) {
        return Flashed(ShowNotListed);
      }
      var show := Show(nextShowId, artistId.value, venueId.value, startTime.value);
      AddShowKeepsConsistent(Snapshot(), show);
      shows := shows + [show];
      nextShowId := nextShowId + 1;
      outcome := Flashed(ShowListed);
    }
  }
}
