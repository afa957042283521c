# Fyyur booking site: a Dafny model of its handlers

Fyyur is a Flask and SQLAlchemy site where venues and artists are listed and
shows are booked between them. This project models the logic of its
handlers in `app.py`:

- **The tables.** `Venue`, `Artist` and the `Shows` association table become
  sequences of records. `start_time` is an integer instant.
- **Read-only handlers.** These are methods over a snapshot of the tables. Each takes "now" as a parameter.
  - The venue listing is grouped by `(city, state)`.
  - The venue search and the artist search.
  - The venue and artist detail pages split their shows into upcoming and past.
  - The show listing.
- **Mutation handlers.** These are methods of a `Store` class that holds the tables and their primary-key sequences.
  - Create, edit and delete a venue.
  - Create and edit an artist.
  - Create a show.
  - Each reads its form, commits its whole change or rolls it back, and ends with one flashed message.

Modules:

- `Seqs`: order-preserving filtering and de-duplication. Every `filter(...).all()` and `group_by` query uses them.
- `Records`: the rows, lookup by id, and the integrity that the schema's keys guarantee.
- `Text`: the case-insensitive substring match of `ILIKE '%term%'`.
- `Forms`: the multi-valued request form and how each handler reads it.
- `Messages`: the flashed texts.
- `Views`: the read-only handlers.
- `Mutations`: the committed effect of each mutation and the `Store` class.

Some behaviour is outside the model and enters as parameters:

- **Commit verdict.** Whether the database accepts a commit is the `dbAccepts` parameter. A refused commit rolls back.
- **Text conversions.** The database turns submitted text into an integer id or an instant. These conversions are the function parameters `toInt` and `toTime`.
- **Integrity failures.** A commit also fails on an integrity violation. The model spells two of these out:
  - deleting a venue that a show still refers to;
  - inserting a show whose artist or venue does not exist.

Where the code goes its own way, the model follows the code:

- **Deleting a venue does not cascade.** The only cascade declared is `cascade="all,delete"` on the backref `Artist.Venue`, the reverse side of `Venue.artists`. And `delete_venue` issues a bulk `query.delete()`, which runs no ORM cascade at all. `query.delete()` runs its DELETE statement at once, before the commit. So while shows still refer to the venue, the foreign key on `Shows.venue_id` makes that statement fail, and the handler rolls back. An id that no venue has deletes nothing, and the handler still reports success.
- **A missing required form key gives 400 Bad Request.** `request.form[key]` raises before the `try`, so no message is flashed. A missing checkbox or `genres` key is not an error.
- **The detail pages require the id to exist.** When no row has the id, both detail handlers fail on `None`. The model states that the id exists as a precondition.
- **The show listing puts the wrong id in `venue_id`.** That field carries the show's own id (`show.id`). The model reproduces this.
- **The two upcoming tests differ.** The detail pages call a show upcoming when it starts at or after now (`>=`). The listing and both searches count only shows that start strictly after now (`>`). The model keeps both comparisons, and the lemmas show where they disagree.

## Model

| member | source | states |
|---|---|---|
| Seqs.Filter | app.py:141 | A query's rows are the table's rows that pass its test, no more and no fewer, in table order and never more of them than the table holds. |
| Seqs.FilterSplits | app.py:171-186 | A test and its negation split a sequence of shows into two parts. Together the parts hold each show exactly as often as the input. Their lengths add up to the input's. No show is in both. |
| Seqs.FilterAppend | app.py:171-186 | Filtering a concatenation is the concatenation of the filtered parts. So the loop's appends build the filter of the prefix seen so far. |
| Seqs.FilterAll | app.py:140-141 | A filter that every element passes returns the sequence unchanged. |
| Seqs.Dedup | app.py:105-108 | The grouped `(city, state)` pairs are exactly the pairs that occur, and none is repeated. |
| Records.FindVenue | app.py:166 | `filter_by(id=...).first()` finds a venue exactly when some row has that id. The venue it returns is a row of the table with that id. |
| Records.FindArtist | app.py:311 | The same for artists. |
| Records.FindVenueAt | app.py:317 | With unique primary keys, the lookup by a row's id returns that row. |
| Records.FindArtistAt | app.py:172 | The same for artists. |
| Text.ContainsIgnoringCase | app.py:141 | `name ILIKE '%term%'`. A match needs the name to be at least as long as the term. A name that starts with the term, ignoring case, matches. |
| Text.ContainsIgnoringCaseAt | app.py:141 | The scanning match holds exactly when the lower-cased term equals the lower-cased name at some position. |
| Text.EmptyTermMatchesEverything | app.py:140-141 | The default empty term matches every name. |
| Text.MatchIgnoresTermCase | app.py:141 | Changing the case of the term's letters does not change which names match. |
| Text.FirstLetterAbsentExcludes | app.py:141 | A name where no position with room for the term starts with the term's first letter does not match. |
| Text.SearchForBlue | app.py:141 | The term "blue" matches "The Blue Note" and "Bluebird Cafe" but not "Jazz Club". |
| Forms.Has | app.py:218 | `key in request.form`: some submitted pair has the key. Its properties are stated by ReadingsAgree. |
| Forms.Get | app.py:140 | `request.form.get(key)`: the first value submitted under the key. ReadingsAgree and ReadingsComeFromPairs state its properties. |
| Forms.GetList | app.py:214 | `request.form.getlist(key)`: every value submitted under the key, in order. ReadingsAgree and ReadingsComeFromPairs state its properties. |
| Forms.ReadingsComeFromPairs | app.py:214 | A value from `get` or `getlist` is one the browser submitted under that key. `get` finds nothing only when no pair has the key. `getlist` never returns more values than were submitted. |
| Forms.ReadingsAgree | app.py:214-218 | `key in form`, `form.get(key)` and `form.getlist(key)` agree. A key is present exactly when `get` finds a value, and exactly when `getlist` is non-empty. `get` returns the first value of `getlist`. |
| Forms.Required | app.py:209 | `form[key]` gives a value exactly when the key is present, and that value is the first one submitted. Otherwise it reports that key as missing. |
| Forms.SearchTerm | app.py:140 | The search term is the submitted value, or the empty string when the key is absent. |
| Forms.ReadVenueForm | app.py:209-219 | The venue form reads successfully exactly when every required key is present. Otherwise it names a required key that is absent. `genres` is the full multi-value list. `seeking_talent` is true exactly when the key is present. Every other field is the submitted value. |
| Forms.ReadArtistForm | app.py:480-489 | The same for the artist form, with `seeking_venue` as its checkbox. |
| Forms.ReadShowForm | app.py:551-553 | The show form reads successfully exactly when `artist_id`, `venue_id` and `start_time` are all present. Otherwise it names the one that is absent. |
| Messages.MessagesNameTheRecord | app.py:244-248 | Every create or edit message for a venue or an artist, success or failure, contains the submitted name. |
| Messages.SuccessAndFailureDiffer | app.py:265-269 | For every name, each handler's success message differs from its failure message. |
| Views.ListVenues | app.py:102-136 | The listing has one entry per distinct `(city, state)` pair, in first-appearance order. Each entry lists that area's venues, each with its count of shows starting after now. |
| Views.ListingPlacesEachVenueOnce | app.py:105-134 | The listed areas are distinct. Each venue's own area is listed. A venue appears in an area exactly when it is that venue's own `(city, state)`. |
| Views.NumUpcomingAtVenue | app.py:119-127 | `len(upcoming_shows)` for a venue counts no more shows than the venue has, and no more than the table holds. |
| Views.NumUpcomingForArtist | app.py:292-300 | The same for an artist. |
| Views.UpcomingCountZeroIff | app.py:119-127 | A venue's upcoming count is zero exactly when none of its shows starts after now. The same holds for an artist. |
| Views.NewShowCounts | app.py:555-557 | Once a show starting after now is inserted, its venue's and its artist's upcoming counts are non-zero. This holds whether or not the library de-duplicates rows. Of the model's row count it states more: the count rises by exactly one, or stays as it was when the show does not start after now. |
| Views.SearchVenues | app.py:139-161 | The result holds the venues whose name contains the term, ignoring case, in table order, with their upcoming counts. `count` equals the length of `data`. Every returned name contains the term. |
| Views.SearchArtists | app.py:286-307 | The same for artists, with counts taken over the artist's shows. |
| Views.AbsentTermFindsEveryRow | app.py:140-158 | With an empty term, both searches return every row in table order. The term is empty when the box is missing from the form or submitted empty. |
| Views.ShowVenue | app.py:164-196 | The page shows the venue with that id. Its upcoming list names the artists of the venue's shows that start at or after now, in table order. Its past list names the artists of the remaining shows. The two counts are the lengths of the lists and add up to the number of the venue's shows. |
| Views.ShowArtist | app.py:310-341 | The same split over the artist's shows, naming their venues. |
| Views.DetailCountsShowsAtNow | app.py:173 | Shows counted upcoming at or after now are those starting strictly after now plus those starting exactly now. |
| Views.DetailAndListingDifferAtNow | app.py:118-122 | A detail page's upcoming list is larger than the listing's count by exactly the shows that start at now. This holds for venues and for artists. |
| Views.ShowAtNowSplitsTheViews | app.py:173 | A venue's show that starts exactly now is upcoming on the venue page. The listing does not count it. |
| Views.ListShows | app.py:525-540 | There is one row per show, in table order. Each row carries the show's artist id, the artist's name and image, the venue's name and the start time. Its `venueId` field carries the show's own id. |
| Mutations.FilterKeepsVenueIdsUnique | app.py:256 | Removing rows keeps the venue primary keys unique. |
| Mutations.VenueFromForm | app.py:222-234 | The row `Venue(...)` builds from the form's fields under the given id. EditVenueOverwrites and the Store methods state its effect. |
| Mutations.ArtistFromForm | app.py:492-503 | The row `Artist(...)` builds from the form's fields. EditArtistOverwrites and the Store methods state its effect. |
| Mutations.AddVenueKeepsConsistent | app.py:222-236 | Adding a venue under an unused id keeps the tables consistent. The new venue is then found by its id. |
| Mutations.AddArtistKeepsConsistent | app.py:492-505 | The same for an artist. |
| Mutations.AddShowKeepsConsistent | app.py:555-557 | Inserting a show under an unused id, with an existing artist and venue, keeps the tables consistent. |
| Mutations.EditVenueOverwrites | app.py:441-455 | Editing replaces the venue with that id by exactly the form's fields, under the same id. Every other row and table is unchanged. The tables stay consistent. |
| Mutations.EditArtistOverwrites | app.py:378-391 | The same for an artist. |
| Mutations.RemoveVenueSpec | app.py:255-257 | Deleting a venue no show refers to keeps the tables consistent. No venue with the id remains. Every other venue is kept. |
| Mutations.RemoveVenue | app.py:256 | After the bulk delete, the venue table holds exactly the former venues whose id differs from the given one. The other tables are unchanged. |
| Mutations.RemovingAbsentVenueChangesNothing | app.py:256 | Deleting an id that no venue has leaves the tables unchanged. |
| Mutations.Store.constructor | app.py:36-74 | The store starts with empty tables and valid key sequences. |
| Mutations.Store.CreateVenueSubmission | app.py:206-250 | A missing required key gives 400 and changes nothing. Otherwise one message is flashed, naming the venue. On commit, the form's venue is appended under the next id. On rollback, the store is unchanged. |
| Mutations.Store.EditVenueSubmission | app.py:425-467 | A missing key gives 400 and changes nothing. Otherwise one message is flashed, naming the venue. The edit commits when the venue exists and the database accepts it: exactly that row is overwritten. Otherwise the store is unchanged. |
| Mutations.Store.DeleteVenue | app.py:252-271 | One message is flashed. The delete takes effect when the id converts to an integer, no show refers to that venue (otherwise the DELETE statement fails) and the database accepts the commit. Otherwise the store is unchanged. |
| Mutations.Store.CreateArtistSubmission | app.py:477-518 | Like venue creation, for artists. |
| Mutations.Store.EditArtistSubmission | app.py:363-404 | Like venue editing, for artists. |
| Mutations.Store.CreateShowSubmission | app.py:548-570 | A missing key gives 400 and changes nothing. Otherwise one message is flashed. The insert commits when both ids and the start time convert, the artist and the venue exist, and the database accepts it: the show is appended under the next id. Otherwise the store is unchanged. |

## Left out

- Routing, templates, redirects, flash rendering, and the 404 and 500 handlers are framework code. Each handler's data and flashed message are modelled; what it renders is not.
- Logging, the werkzeug and `app.logger` handlers, `Migrate` and configuration are I/O and set-up.
- `format_datetime` wraps `dateutil` and `babel`. Start times appear unformatted as integers.
- `db.session.close()` and connection handling are out. Only the effect of commit or rollback is modelled.
- `datetime.now()` is the `now` parameter. Each handler compares every show against one instant. The code reads the clock once per upcoming-count query in the listing and the searches, and once per show inside the detail pages' loops.
- Commit failures other than the two integrity cases above are the `dbAccepts` parameter. The cause is not modelled.
- The text-to-integer and text-to-instant conversions are the `toInt` and `toTime` parameters.
- `print(sys.exc_info())` on each failure path writes to the console. It is I/O and does not affect the store or the message.
- Concurrency is not modelled. Each handler runs alone over one snapshot. The listing and the searches issue several queries. Under PostgreSQL's default READ COMMITTED isolation, each query may see a different committed state.
- Primary-key sequence values consumed by a rolled-back insert are not modelled. The next id advances only on commit.
- Text.ContainsIgnoringCase: folds only ASCII letters, and treats `%`, `_` and `\` in the term as ordinary characters. The database's `ILIKE` treats `%` and `_` as wildcards, and PostgreSQL, which the `ARRAY` columns require, treats `\` as the escape character.
- Views.NumUpcomingAtVenue: counts every matching `Shows` row. The legacy `Query` of SQLAlchemy de-duplicates whole-entity rows by primary key, so the real count may collapse to 0 or 1. The zero/non-zero property holds either way.
- Views.NumUpcomingForArtist: the same as NumUpcomingAtVenue.
- Views.NewShowCounts: the exact rise by one holds only of the model's row count. The page's `num_upcoming_shows` can stay at 1 when rows are de-duplicated. Only the non-zero clause holds of both.
- Views.ListVenues: SQL leaves the order of `group_by` groups and query rows unspecified. The model fixes one order: first appearance for groups, table order for rows.
- Views.SearchVenues: the query has no `ORDER BY`, so the database may return matches in any order. The model fixes table order.
- Views.SearchArtists: no `ORDER BY` either. The model fixes table order.
- Views.AbsentTermFindsEveryRow: states the rows in table order, which is the order the model fixes for the searches. The database promises only the same set of rows.
- Views.ShowVenue: the query for the venue's shows has no `ORDER BY`. The model fixes table order, and the upcoming and past lists keep that order.
- Views.ShowArtist: as for ShowVenue, the model fixes table order for the artist's shows.
- Views.ListShows: the `Shows` query has no `ORDER BY`. The model fixes table order.
- The GET form handlers (`create_venue_form`, `edit_venue`, `edit_artist`, `create_artist_form`, `create_shows`) only pre-fill `VenueForm`, `ArtistForm` and `ShowForm`. `forms.py` is not part of this model.
- `index` and the artist listing `artists()` only render pages or copy ids and names. They are not modelled.
- Foreign keys are assumed to be enforced. On an engine without that enforcement, a delete would leave shows referring to a missing venue, and a show could refer to rows that do not exist.
- The `Venue.artists` and `Artist.venues` relationships are left out. No modelled handler reads them.
