/** The flash messages the mutation handlers leave for the next page, and the
    outcome of a mutation request. */
module Messages {

  /** A mutation request ends with exactly one flashed message, or, when a
      required form key is missing, with 400 Bad Request and no message. */
  datatype Outcome = Flashed(message: string) | BadRequest(missingKey: string)

  function VenueListed(name: string): string { "Venue " + name + " was successfully listed!" }
  function VenueNotListed(name: string): string { "An error occurred. Venue " + name + " could not be listed." }
  function VenueUpdated(name: string): string { "Venue " + name + " was successfully updated!" }
  function VenueNotUpdated(name: string): string { "An error occurred. Venue " + name + " could not be updated." }
  function ArtistListed(name: string): string { "Artist " + name + " was successfully listed!" }
  function ArtistNotListed(name: string): string { "An error occurred. Artist " + name + " could not be listed." }
  function ArtistUpdated(name: string): string { "Artist " + name + " was successfully updated!" }
  function ArtistNotUpdated(name: string): string { "An error occurred. Artist " + name + " could not be updated." }
  const VenueDeleted: string := "Venue was successfully deleted!"
  const VenueNotDeleted: string := "Something went wrong and we couldn't deleted the venue!"
  const ShowListed: string := "Show was successfully listed!"
  const ShowNotListed: string := "An error occurred. Show could not be listed."

  /** `text` occurs in `msg` starting at position `i`. */
  predicate OccursAt(msg: string, text: string, i: int)
  {
    0 <= i <= |msg| - |text| && msg[i..i + |text|] == text
  }

  ghost predicate Mentions(msg: string, text: string)
  {
    exists i :: OccursAt(msg, text, i)
  }

  /** Every venue and artist message names the submitted record. */
  lemma MessagesNameTheRecord(name: string)
    ensures Mentions(VenueListed(name), name) && Mentions(VenueNotListed(name), name)
    ensures Mentions(VenueUpdated(name), name) && Mentions(VenueNotUpdated(name), name)
    ensures Mentions(ArtistListed(name), name) && Mentions(ArtistNotListed(name), name)
    ensures Mentions(ArtistUpdated(name), name) && Mentions(ArtistNotUpdated(name), name)
  {
    assert OccursAt(VenueListed(name), name, 6);
    assert OccursAt(VenueNotListed(name), name, 25);
    assert OccursAt(VenueUpdated(name), name, 6);
    assert OccursAt(VenueNotUpdated(name), name, 25);
    assert OccursAt(ArtistListed(name), name, 7);
    assert OccursAt(ArtistNotListed(name), name, 26);
    assert OccursAt(ArtistUpdated(name), name, 7);
    assert OccursAt(ArtistNotUpdated(name), name, 26);
  }

  /** For any name, whatever it contains, the success and the failure message
      of a handler are different texts, so the one flashed message tells the
      user which way the request went. */
  lemma SuccessAndFailureDiffer(name: string)
    ensures VenueListed(name) != VenueNotListed(name)
    ensures VenueUpdated(name) != VenueNotUpdated(name)
    ensures ArtistListed(name) != ArtistNotListed(name)
    ensures ArtistUpdated(name) != ArtistNotUpdated(name)
    ensures VenueDeleted != VenueNotDeleted
    ensures ShowListed != ShowNotListed
  {
  }
}
