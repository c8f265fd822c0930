/**
 * The user's dashboard: saved guides and itineraries, the user's own
 * itineraries and the liked ones.
 */
module Dashboard {
  import opened Optional
  import opened Lists
  import opened Server

  /** A listed guide or itinerary; only its id matters to the updates. */
  datatype Entry = Entry(id: string, title: string)

  datatype SavedData = SavedData(savedGuides: seq<Entry>, savedItineraries: seq<Entry>)

  function IdOf(e: Entry): string {
    e.id
  }

  /** `handleUnsaveGuide`: every saved guide with that id goes; saved itineraries are untouched. */
  function UnsaveGuide(data: SavedData, guideId: string): (r: SavedData)
    ensures r.savedItineraries == data.savedItineraries
    ensures forall g :: g in r.savedGuides <==> g in data.savedGuides && g.id != guideId
  {
    data.(savedGuides := RemoveKey(data.savedGuides, IdOf, guideId))
  }

  /** `handleUnsaveItinerary`: the mirror image. */
  function UnsaveItinerary(data: SavedData, itineraryId: string): (r: SavedData)
    ensures r.savedGuides == data.savedGuides
    ensures forall i :: i in r.savedItineraries <==> i in data.savedItineraries && i.id != itineraryId
  {
    data.(savedItineraries := RemoveKey(data.savedItineraries, IdOf, itineraryId))
  }

  /** Removing an id a second time changes nothing. */
  lemma RemoveTwice(entries: seq<Entry>, id: string)
    ensures RemoveKey(RemoveKey(entries, IdOf, id), IdOf, id) == RemoveKey(entries, IdOf, id)
  {
    var once := RemoveKey(entries, IdOf, id);
    assert forall i :: 0 <= i < |once| ==> IdOf(once[i]) != id by {
      forall i | 0 <= i < |once| ensures IdOf(once[i]) != id {
        assert once[i] in once;
      }
    }
    RemoveKeyAbsent(once, IdOf, id);
  }

  /** Unsaving is idempotent. */
  lemma UnsaveGuideTwice(data: SavedData, guideId: string)
    ensures UnsaveGuide(UnsaveGuide(data, guideId), guideId) == UnsaveGuide(data, guideId)
  {
    RemoveTwice(data.savedGuides, guideId);
  }

  /** Unsaving a guide and an itinerary commute, since each touches only its own list. */
  lemma UnsavesCommute(data: SavedData, guideId: string, itineraryId: string)
    ensures UnsaveItinerary(UnsaveGuide(data, guideId), itineraryId) == UnsaveGuide(UnsaveItinerary(data, itineraryId), guideId)
  {
  }

  /** `handleDeleteItinerary`: the list loses that itinerary only after a confirmed and accepted delete. */
  function DeleteItinerary(mine: seq<Entry>, itineraryId: string, confirmed: bool, reply: Reply<()>): (r: seq<Entry>)
    ensures !(confirmed && reply.Ok?) ==> r == mine
    ensures confirmed && reply.Ok? ==> forall e :: e in r <==> e in mine && e.id != itineraryId
  {
    if confirmed && reply.Ok? then RemoveKey(mine, IdOf, itineraryId) else mine
  }

  /** Deleting an itinerary the list does not hold changes nothing. */
  lemma DeleteAbsentItinerary(mine: seq<Entry>, itineraryId: string, confirmed: bool, reply: Reply<()>)
    requires forall i :: 0 <= i < |mine| ==> mine[i].id != itineraryId
    ensures DeleteItinerary(mine, itineraryId, confirmed, reply) == mine
  {
    RemoveKeyAbsent(mine, IdOf, itineraryId);
  }

  /** `likedRes.data || []`. */
  function LikedItineraries(data: Option<seq<Entry>>): (r: seq<Entry>)
    ensures data == None ==> r == []
    ensures data.Some? ==> r == data.value
  {
    data.GetOr([])
  }
}
