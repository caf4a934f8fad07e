/**
 The query rewrite of the `play` command: a Spotify track link is replaced by
 "<track name> <first artist name>" so that the audio resolver can search for
 it. The catalogue lookup is an input here; only the string logic is modelled.
 */
module SpotifyQuery {
  import opened Text

  /** The marker that makes a query a Spotify track link. */
  const TrackLinkMarker := "spotify.com/track"

  /** What the catalogue lookup returns for a track link: its name and its artists' names. */
  datatype CatalogTrack = CatalogTrack(name: string, artists: seq<string>)

  /** The query contains the track-link marker anywhere. */
  predicate IsTrackLink(query: string)
  {
    Occurs(TrackLinkMarker, query)
  }

  /**
   The query handed to the resolver. `found` is the catalogue's answer for
   `query`; it is consulted only for a track link, and then its first artist
   must exist (the source indexes `artists[0]`).
   */
  function EffectiveQuery(query: string, found: CatalogTrack): (q: string)
    requires IsTrackLink(query) ==> |found.artists| >= 1
    ensures (exists i :: OccursAtIndex(TrackLinkMarker, query, i)) ==>
      |found.artists| >= 1 && q == found.name + " " + found.artists[0]
    ensures (forall i :: !OccursAtIndex(TrackLinkMarker, query, i)) ==> q == query
  {
    OccursAt(TrackLinkMarker, query);
    if IsTrackLink(query) then found.name + " " + found.artists[0] else query
  }
}
