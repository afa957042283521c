/** The read-only handlers: the venue listing grouped by area, the two name
    searches, the venue and artist detail pages with their past/upcoming
    partition, and the show listing. Each reads a snapshot of the tables and
    takes "now" as a parameter instead of reading the clock. */
module Views {
  import opened Seqs
  import opened Records
  import opened Text
  import opened Forms

  // Row predicates of the queries.

  function AtVenue(venueId: int): Show -> bool { (s: Show) => s.venueId == venueId }
  function ByArtist(artistId: int): Show -> bool { (s: Show) => s.artistId == artistId }

  /** The detail pages count a show as upcoming when it starts at or after now. */
  function StartsFrom(now: int): Show -> bool { (s: Show) => s.startTime >= now }

  /** The listing and the searches count only shows that start strictly after now. */
  function StartsAfter(now: int): Show -> bool { (s: Show) => s.startTime > now }

  function StartsAt(now: int): Show -> bool { (s: Show) => s.startTime == now }

  function InArea(city: string, state: string): Venue -> bool
  {
    (v: Venue) => v.city == city && v.state == state
  }

  function VenueNameMatches(term: string): Venue -> bool { (v: Venue) => ContainsIgnoringCase(v.name, term) }
  function ArtistNameMatches(term: string): Artist -> bool { (a: Artist) => ContainsIgnoringCase(a.name, term) }

  /** `num_upcoming_shows` of a venue: the `Shows` rows with its `venue_id`
      that start strictly after now. */
  function NumUpcomingAtVenue(shows: seq<Show>, venueId: int, now: int): (n: nat)
    ensures n <= |Filter(AtVenue(venueId), shows)| <= |shows|
  {
    |Filter(StartsAfter(now), Filter(AtVenue(venueId), shows))|
  }

  /** `num_upcoming_shows` of an artist. */
  function NumUpcomingForArtist(shows: seq<Show>, artistId: int, now: int): (n: nat)
    ensures n <= |Filter(ByArtist(artistId), shows)| <= |shows|
  {
    |Filter(StartsAfter(now), Filter(ByArtist(artistId), shows))|
  }

  // The structures the handlers hand to the templates.

  datatype Summary = Summary(id: int, name: string, numUpcomingShows: int)
  datatype Area = Area(city: string, state: string, venues: seq<Summary>)
  datatype SearchResult = SearchResult(count: int, data: seq<Summary>)

  /** One show on a detail page: the other party's id, name and image, and
      the start time (left unformatted). */
  datatype ShowEntry = ShowEntry(partyId: int, partyName: string, partyImageLink: string, startTime: int)

  datatype VenueDetail = VenueDetail(
    venue: Venue,
    upcomingShows: seq<ShowEntry>, upcomingShowsCount: int,
    pastShows: seq<ShowEntry>, pastShowsCount: int)

  datatype ArtistDetail = ArtistDetail(
    artist: Artist,
    upcomingShows: seq<ShowEntry>, upcomingShowsCount: int,
    pastShows: seq<ShowEntry>, pastShowsCount: int)

  /** One row of the show listing; its `venueId` field is filled from the show. */
  datatype ShowRow = ShowRow(
    venueId: int, venueName: string,
    artistId: int, artistName: string, artistImageLink: string,
    startTime: int)

  function VenueSummaries(shows: seq<Show>, vs: seq<Venue>, now: int): seq<Summary>
  {
    seq(|vs|, k requires 0 <= k < |vs| => Summary(vs[k].id, vs[k].name, NumUpcomingAtVenue(shows, vs[k].id, now)))
  }

  function ArtistSummaries(shows: seq<Show>, artists: seq<Artist>, now: int): seq<Summary>
  {
    seq(|artists|, k requires 0 <= k < |artists| =>
      Summary(artists[k].id, artists[k].name, NumUpcomingForArtist(shows, artists[k].id, now)))
  }

  // The venue listing.

  /** The `(city, state)` pairs of the venues, each once, as the `group_by`
      query returns them. */
  function AreasOf(vs: seq<Venue>): seq<(string, string)>
  {
    Dedup(Locations(vs))
  }

  /** The `(city, state)` pair of every venue, in table order. */
  function Locations(vs: seq<Venue>): seq<(string, string)>
  {
    seq(|vs|, k requires 0 <= k < |vs| => (vs[k].city, vs[k].state))
  }

  /** The venues listed under one area: `filter_by(state=...).filter_by(city=...)`. */
  function AreaMembers(vs: seq<Venue>, area: (string, string)): seq<Venue>
  {
    Filter(InArea(area.0, area.1), vs)
  }

  function AreaOf(t: Tables, area: (string, string), now: int): Area
  {
    Area(area.0, area.1, VenueSummaries(t.shows, AreaMembers(t.venues, area), now))
  }

  /** What the venue listing shows: every area with its venues. */
  function AreaListing(t: Tables, now: int): seq<Area>
  {
    var areas := AreasOf(t.venues);
    seq(|areas|, i requires 0 <= i < |areas| => AreaOf(t, areas[i], now))
  }

  /** `venues()`: one entry per area, each listing its venues with their
      upcoming-show counts. */
  method ListVenues(t: Tables, now: int) returns (data: seq<Area>)
    ensures data == AreaListing(t, now)
  {
    var areas := AreasOf(t.venues);
    data := [];
    for i := 0 to |areas|
      invariant |data| == i
      invariant forall j :: 0 <= j < i ==> data[j] == AreaOf(t, areas[j], now)
    {
      var area := areas[i];
      var members := Filter(InArea(area.0, area.1), t.venues);
      var venuesData := [];
      for k := 0 to |members|
        invariant |venuesData| == k
        invariant forall j :: 0 <= j < k ==>
          venuesData[j] == Summary(members[j].id, members[j].name, NumUpcomingAtVenue(t.shows, members[j].id, now))
      {
        var venue := members[k];
        var upcoming := Filter(StartsAfter(now), Filter(AtVenue(venue.id), t.shows));
        venuesData := venuesData + [Summary(venue.id, venue.name, |upcoming|)];
      }
      data := data + [Area(area.0, area.1, venuesData)];
    }
  }

  /** The listing's areas are distinct, and each venue is listed under exactly
      one area: the one that equals its own city and state. */
  lemma ListingPlacesEachVenueOnce(t: Tables, now: int, k: int)
    requires VenueIdsUnique(t.venues) && 0 <= k < |t.venues|
    ensures var l := AreaListing(t, now);
      forall i, j :: 0 <= i < j < |l| ==> (l[i].city, l[i].state) != (l[j].city, l[j].state)
    ensures var l := AreaListing(t, now);
      exists i :: 0 <= i < |l| && l[i].city == t.venues[k].city && l[i].state == t.venues[k].state
    ensures var l := AreaListing(t, now);
      forall i :: 0 <= i < |l| ==>
        ((exists j :: 0 <= j < |l[i].venues| && l[i].venues[j].id == t.venues[k].id) <==>
         (l[i].city == t.venues[k].city && l[i].state == t.venues[k].state))
  {
    var v := t.venues[k];
    var pairs := Locations(t.venues);
    var areas := AreasOf(t.venues);
    var l := AreaListing(t, now);
    assert pairs[k] == (v.city, v.state);
    assert (v.city, v.state) in pairs;
    assert (v.city, v.state) in areas;
    var i0 :| 0 <= i0 < |areas| && areas[i0] == (v.city, v.state);
    assert l[i0].city == v.city && l[i0].state == v.state;
    forall i | 0 <= i < |l|
      ensures (exists j :: 0 <= j < |l[i].venues| && l[i].venues[j].id == v.id) <==>
              (l[i].city == v.city && l[i].state == v.state)
    {
      var members := AreaMembers(t.venues, areas[i]);
      if exists j :: 0 <= j < |l[i].venues| && l[i].venues[j].id == v.id {
        var j :| 0 <= j < |l[i].venues| && l[i].venues[j].id == v.id;
        var w := members[j];
        assert w in members;
        var n :| 0 <= n < |t.venues| && t.venues[n] == w;
        assert n == k;
      }
      if l[i].city == v.city && l[i].state == v.state {
        assert v in members;
        var j :| 0 <= j < |members| && members[j] == v;
        assert l[i].venues[j].id == v.id;
      }
    }
  }

  /** A venue's (or an artist's) upcoming count is zero exactly when no show
      of it starts after now. */
  lemma UpcomingCountZeroIff(shows: seq<Show>, id: int, now: int)
    ensures NumUpcomingAtVenue(shows, id, now) == 0 <==>
            forall s :: s in shows && s.venueId == id ==> s.startTime <= now
    ensures NumUpcomingForArtist(shows, id, now) == 0 <==>
            forall s :: s in shows && s.artistId == id ==> s.startTime <= now
  {
    var v := Filter(StartsAfter(now), Filter(AtVenue(id), shows));
    var a := Filter(StartsAfter(now), Filter(ByArtist(id), shows));
    if v != [] { assert v[0] in v; }
    if a != [] { assert a[0] in a; }
  }

  /** A show appended to the table raises its venue's and its artist's
      upcoming count by one when it starts after now, and leaves them as
      they were otherwise. */
  lemma NewShowCounts(shows: seq<Show>, s: Show, now: int)
    ensures NumUpcomingAtVenue(shows + [s], s.venueId, now) ==
            NumUpcomingAtVenue(shows, s.venueId, now) + (if s.startTime > now then 1 else 0)
    ensures NumUpcomingForArtist(shows + [s], s.artistId, now) ==
            NumUpcomingForArtist(shows, s.artistId, now) + (if s.startTime > now then 1 else 0)
    ensures s.startTime > now ==>
            NumUpcomingAtVenue(shows + [s], s.venueId, now) > 0 && NumUpcomingForArtist(shows + [s], s.artistId, now) > 0
  {
    FilterAppend(AtVenue(s.venueId), shows, [s]);
    assert Filter(AtVenue(s.venueId), [s]) == [s];
    FilterAppend(StartsAfter(now), Filter(AtVenue(s.venueId), shows), [s]);
    FilterAppend(ByArtist(s.artistId), shows, [s]);
    assert Filter(ByArtist(s.artistId), [s]) == [s];
    FilterAppend(StartsAfter(now), Filter(ByArtist(s.artistId), shows), [s]);
    assert Filter(StartsAfter(now), [s]) == if s.startTime > now then [s] else [];
  }

  // The searches.

  /** What a venue search shows for a term. */
  function VenueSearch(t: Tables, term: string, now: int): SearchResult
  {
    var found := Filter(VenueNameMatches(term), t.venues);
    SearchResult(|found|, VenueSummaries(t.shows, found, now))
  }

  /** What an artist search shows for a term. */
  function ArtistSearch(t: Tables, term: string, now: int): SearchResult
  {
    var found := Filter(ArtistNameMatches(term), t.artists);
    SearchResult(|found|, ArtistSummaries(t.shows, found, now))
  }

  /** `search_venues()`: the venues whose name contains the term, ignoring
      case, each with its upcoming-show count; `count` is their number. */
  method SearchVenues(t: Tables, form: Form, now: int) returns (r: SearchResult)
    ensures r == VenueSearch(t, SearchTerm(form), now)
    ensures r.count == |r.data|
    ensures forall k :: 0 <= k < |r.data| ==> ContainsIgnoringCase(r.data[k].name, SearchTerm(form))
  {
    var term := SearchTerm(form);
    var venues := Filter(VenueNameMatches(term), t.venues);
    var data := [];
    for k := 0 to |venues|
      invariant |data| == k
      invariant forall j :: 0 <= j < k ==>
        data[j] == Summary(venues[j].id, venues[j].name, NumUpcomingAtVenue(t.shows, venues[j].id, now))
    {
      var venue := venues[k];
      var upcoming := Filter(StartsAfter(now), Filter(AtVenue(venue.id), t.shows));
      data := data + [Summary(venue.id, venue.name, |upcoming|)];
    }
    r := SearchResult(|venues|, data);
    forall k | 0 <= k < |r.data|
      ensures ContainsIgnoringCase(r.data[k].name, term)
    {
      assert venues[k] in venues;
    }
  }

  /** `search_artists()`. */
  method SearchArtists(t: Tables, form: Form, now: int) returns (r: SearchResult)
    ensures r == ArtistSearch(t, SearchTerm(form), now)
    ensures r.count == |r.data|
    ensures forall k :: 0 <= k < |r.data| ==> ContainsIgnoringCase(r.data[k].name, SearchTerm(form))
  {
    var term := SearchTerm(form);
    var artists := Filter(ArtistNameMatches(term), t.artists);
    var data := [];
    for k := 0 to |artists|
      invariant |data| == k
      invariant forall j :: 0 <= j < k ==>
        data[j] == Summary(artists[j].id, artists[j].name, NumUpcomingForArtist(t.shows, artists[j].id, now))
    {
      var artist := artists[k];
      var upcoming := Filter(StartsAfter(now), Filter(ByArtist(artist.id), t.shows));
      data := data + [Summary(artist.id, artist.name, |upcoming|)];
    }
    r := SearchResult(|artists|, data);
    forall k | 0 <= k < |r.data|
      ensures ContainsIgnoringCase(r.data[k].name, term)
    {
      assert artists[k] in artists;
    }
  }

  /** With an empty search term, whether the box was left out of the form or
      submitted empty, every venue and every artist is found. */
  lemma AbsentTermFindsEveryRow(t: Tables, form: Form, now: int)
    requires SearchTerm(form) == ""
    ensures VenueSearch(t, SearchTerm(form), now) == SearchResult(|t.venues|, VenueSummaries(t.shows, t.venues, now))
    ensures ArtistSearch(t, SearchTerm(form), now) == SearchResult(|t.artists|, ArtistSummaries(t.shows, t.artists, now))
  {
    forall v | v in t.venues ensures VenueNameMatches("")(v) {
      EmptyTermMatchesEverything(v.name);
    }
    forall a | a in t.artists ensures ArtistNameMatches("")(a) {
      EmptyTermMatchesEverything(a.name);
    }
    FilterAll(VenueNameMatches(""), t.venues);
    FilterAll(ArtistNameMatches(""), t.artists);
  }

  // The detail pages.

  /** A show on a venue's page names the show's artist. */
  function ArtistEntry(artists: seq<Artist>, s: Show): ShowEntry
    requires HasArtist(artists, s.artistId)
  {
    var a := FindArtist(artists, s.artistId).value;
    ShowEntry(a.id, a.name, a.imageLink, s.startTime)
  }

  function ArtistEntries(artists: seq<Artist>, ss: seq<Show>): seq<ShowEntry>
    requires forall s :: s in ss ==> HasArtist(artists, s.artistId)
  {
    seq(|ss|, k requires 0 <= k < |ss| => ArtistEntry(artists, ss[k]))
  }

  /** A show on an artist's page names the show's venue. */
  function VenueEntry(vs: seq<Venue>, s: Show): ShowEntry
    requires HasVenue(vs, s.venueId)
  {
    var v := FindVenue(vs, s.venueId).value;
    ShowEntry(v.id, v.name, v.imageLink, s.startTime)
  }

  function VenueEntries(vs: seq<Venue>, ss: seq<Show>): seq<ShowEntry>
    requires forall s :: s in ss ==> HasVenue(vs, s.venueId)
  {
    seq(|ss|, k requires 0 <= k < |ss| => VenueEntry(vs, ss[k]))
  }

  /** One more show of the query result extends the entries of each part
      by that show's entry exactly when it belongs to that part. */
  lemma ArtistEntriesStep(artists: seq<Artist>, shows: seq<Show>, i: int, keep: Show -> bool)
    requires 0 <= i < |shows| && forall s :: s in shows ==> HasArtist(artists, s.artistId)
    ensures forall s :: s in Filter(keep, shows[..i + 1]) ==> HasArtist(artists, s.artistId)
    ensures ArtistEntries(artists, Filter(keep, shows[..i + 1])) ==
            ArtistEntries(artists, Filter(keep, shows[..i])) +
            (if keep(shows[i]) then [ArtistEntry(artists, shows[i])] else [])
  {
    assert shows[..i + 1] == shows[..i] + [shows[i]];
    FilterAppend(keep, shows[..i], [shows[i]]);
    assert Filter(keep, [shows[i]]) == if keep(shows[i]) then [shows[i]] else [];
  }

  lemma VenueEntriesStep(vs: seq<Venue>, shows: seq<Show>, i: int, keep: Show -> bool)
    requires 0 <= i < |shows| && forall s :: s in shows ==> HasVenue(vs, s.venueId)
    ensures forall s :: s in Filter(keep, shows[..i + 1]) ==> HasVenue(vs, s.venueId)
    ensures VenueEntries(vs, Filter(keep, shows[..i + 1])) ==
            VenueEntries(vs, Filter(keep, shows[..i])) +
            (if keep(shows[i]) then [VenueEntry(vs, shows[i])] else [])
  {
    assert shows[..i + 1] == shows[..i] + [shows[i]];
    FilterAppend(keep, shows[..i], [shows[i]]);
    assert Filter(keep, [shows[i]]) == if keep(shows[i]) then [shows[i]] else [];
  }

  /** `show_venue(venue_id)`: the venue's shows, in the order the query
      returns them, split into those starting at or after now and the rest. */
  method ShowVenue(t: Tables, venueId: int, now: int) returns (d: VenueDetail)
    requires Consistent(t) && HasVenue(t.venues, venueId)
    ensures Some(d.venue) == FindVenue(t.venues, venueId)
    ensures d.upcomingShows == ArtistEntries(t.artists, Filter(StartsFrom(now), Filter(AtVenue(venueId), t.shows)))
    ensures d.pastShows == ArtistEntries(t.artists, Filter(Not(StartsFrom(now)), Filter(AtVenue(venueId), t.shows)))
    ensures d.upcomingShowsCount == |d.upcomingShows| && d.pastShowsCount == |d.pastShows|
    ensures d.upcomingShowsCount + d.pastShowsCount == |Filter(AtVenue(venueId), t.shows)|
  {
    var venue := FindVenue(t.venues, venueId).value;
    var shows := Filter(AtVenue(venue.id), t.shows);
    assert forall s :: s in shows ==> HasArtist(t.artists, s.artistId);
    var upcoming: seq<ShowEntry> := [];
    var past: seq<ShowEntry> := [];
    for i := 0 to |shows|
      invariant upcoming == ArtistEntries(t.artists, Filter(StartsFrom(now), shows[..i]))
      invariant past == ArtistEntries(t.artists, Filter(Not(StartsFrom(now)), shows[..i]))
    {
      var show := shows[i];
      var artist := FindArtist(t.artists, show.artistId).value;
      var entry := ShowEntry(artist.id, artist.name, artist.imageLink, show.startTime);
      ArtistEntriesStep(t.artists, shows, i, StartsFrom(now));
      ArtistEntriesStep(t.artists, shows, i, Not(StartsFrom(now)));
      if show.startTime >= now {
        upcoming := upcoming + [entry];
      } else {
        past := past + [entry];
      }
    }
    assert shows[..|shows|] == shows;
    FilterSplits(StartsFrom(now), shows);
    d := VenueDetail(venue, upcoming, |upcoming|, past, |past|);
  }

  /** `show_artist(artist_id)`: the same split over the artist's shows. */
  method ShowArtist(t: Tables, artistId: int, now: int) returns (d: ArtistDetail)
    requires Consistent(t) && HasArtist(t.artists, artistId)
    ensures Some(d.artist) == FindArtist(t.artists, artistId)
    ensures d.upcomingShows == VenueEntries(t.venues, Filter(StartsFrom(now), Filter(ByArtist(artistId), t.shows)))
    ensures d.pastShows == VenueEntries(t.venues, Filter(Not(StartsFrom(now)), Filter(ByArtist(artistId), t.shows)))
    ensures d.upcomingShowsCount == |d.upcomingShows| && d.pastShowsCount == |d.pastShows|
    ensures d.upcomingShowsCount + d.pastShowsCount == |Filter(ByArtist(artistId), t.shows)|
  {
    var artist := FindArtist(t.artists, artistId).value;
    var shows := Filter(ByArtist(artist.id), t.shows);
    assert forall s :: s in shows ==> HasVenue(t.venues, s.venueId);
    var upcoming: seq<ShowEntry> := [];
    var past: seq<ShowEntry> := [];
    for i := 0 to |shows|
      invariant upcoming == VenueEntries(t.venues, Filter(StartsFrom(now), shows[..i]))
      invariant past == VenueEntries(t.venues, Filter(Not(StartsFrom(now)), shows[..i]))
    {
      var show := shows[i];
      var venue := FindVenue(t.venues, show.venueId).value;
      var entry := ShowEntry(venue.id, venue.name, venue.imageLink, show.startTime);
      VenueEntriesStep(t.venues, shows, i, StartsFrom(now));
      VenueEntriesStep(t.venues, shows, i, Not(StartsFrom(now)));
      if show.startTime >= now {
        upcoming := upcoming + [entry];
      } else {
        past := past + [entry];
      }
    }
    assert shows[..|shows|] == shows;
    FilterSplits(StartsFrom(now), shows);
    d := ArtistDetail(artist, upcoming, |upcoming|, past, |past|);
  }

  /** Among any shows, those upcoming on a detail page are those the listing
      counts plus those starting exactly now. */
  lemma {:induction false} DetailCountsShowsAtNow(xs: seq<Show>, now: int)
    ensures |Filter(StartsFrom(now), xs)| == |Filter(StartsAfter(now), xs)| + |Filter(StartsAt(now), xs)|
  {
    if xs != [] {
      DetailCountsShowsAtNow(xs[1..], now);
    }
  }

  /** The venue page lists as upcoming every show the listing and the search
      count, and in addition the shows that start exactly now; the same holds
      for an artist. */
  lemma DetailAndListingDifferAtNow(shows: seq<Show>, id: int, now: int)
    ensures |Filter(StartsFrom(now), Filter(AtVenue(id), shows))| ==
            NumUpcomingAtVenue(shows, id, now) + |Filter(StartsAt(now), Filter(AtVenue(id), shows))|
    ensures |Filter(StartsFrom(now), Filter(ByArtist(id), shows))| ==
            NumUpcomingForArtist(shows, id, now) + |Filter(StartsAt(now), Filter(ByArtist(id), shows))|
  {
  }

  /** A show of the venue that starts exactly now is on the venue page's
      upcoming list, and it is not among the shows the listing counts. */
  lemma ShowAtNowSplitsTheViews(shows: seq<Show>, s: Show, now: int)
    requires s in shows && s.startTime == now
    ensures s in Filter(StartsFrom(now), Filter(AtVenue(s.venueId), shows))
    ensures s !in Filter(StartsAfter(now), Filter(AtVenue(s.venueId), shows))
    ensures NumUpcomingAtVenue(shows, s.venueId, now) <
            |Filter(StartsFrom(now), Filter(AtVenue(s.venueId), shows))|
  {
    DetailAndListingDifferAtNow(shows, s.venueId, now);
    var atNow := Filter(StartsAt(now), Filter(AtVenue(s.venueId), shows));
    assert s in atNow;
  }

  // The show listing.

  /** `shows()`: every show with its venue's name and its artist, in table
      order. The row's venue id field carries the show's own id. */
  method ListShows(t: Tables) returns (data: seq<ShowRow>)
    requires Consistent(t)
    ensures |data| == |t.shows|
    ensures forall k :: 0 <= k < |data| ==>
      var s := t.shows[k];
      && data[k].venueId == s.id
      && FindVenue(t.venues, s.venueId).Some?
      && data[k].venueName == FindVenue(t.venues, s.venueId).value.name
      && data[k].artistId == s.artistId
      && FindArtist(t.artists, s.artistId).Some?
      && data[k].artistName == FindArtist(t.artists, s.artistId).value.name
      && data[k].artistImageLink == FindArtist(t.artists, s.artistId).value.imageLink
      && data[k].startTime == s.startTime
  {
    data := [];
    for k := 0 to |t.shows|
      invariant |data| == k
      invariant forall j :: 0 <= j < k ==>
        var s := t.shows[j];
        && data[j].venueId == s.id
        && FindVenue(t.venues, s.venueId).Some?
        && data[j].venueName == FindVenue(t.venues, s.venueId).value.name
        && data[j].artistId == s.artistId
        && FindArtist(t.artists, s.artistId).Some?
        && data[j].artistName == FindArtist(t.artists, s.artistId).value.name
        && data[j].artistImageLink == FindArtist(t.artists, s.artistId).value.imageLink
        && data[j].startTime == s.startTime
    {
      var show := t.shows[k];
      assert show in t.shows;
      var artist := FindArtist(t.artists, show.artistId).value;
      var venue := FindVenue(t.venues, show.venueId).value;
      data := data + [ShowRow(show.id, venue.name, artist.id, artist.name, artist.imageLink, show.startTime)];
    }
  }
}
