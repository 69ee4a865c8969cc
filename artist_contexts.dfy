/**
 * The artist playback contexts. An existing context is created from an
 * artist and the album groups to include, starts with an empty playback order
 * (the initial value is the base class's, assumed empty here)
 * and sets it when it is fully loaded. A reordered context takes the artist of
 * a base context and a caller-supplied playback order, and keeps the base.
 */
module ArtistPlaybackContexts {
  import opened Wrappers
  import opened Catalog
  import opened Merge
  import opened ArtistTracks

  /** Any artist context can be the base of a reordered one. */
  datatype ArtistContext =
    | Original(original: ExistingArtistPlaybackContext)
    | Reordered(reordered: ReorderedArtistPlaybackContext)
  {
    /** The artist of the context. */
    function SpotifyContext(): Artist {
      match this
      case Original(c) => c.spotifyContext
      case Reordered(c) => c.spotifyContext
    }
  }

  class ExistingArtistPlaybackContext {
    const spotifyContext: Artist
    const albumGroupsToInclude: set<AlbumGroup>
    var playbackOrder: seq<TrackAndAlbum>

    constructor (artist: Artist, albumTypesToInclude: set<AlbumGroup>)
      ensures spotifyContext == artist
      ensures albumGroupsToInclude == albumTypesToInclude
      ensures playbackOrder == []
    {
      spotifyContext := artist;
      albumGroupsToInclude := albumTypesToInclude;
      playbackOrder := [];
    }

    /** Look the artist up by id in the catalog and create an unloaded context for it. */
    static method FromSimpleArtist(catalog: RemoteCatalog, artistId: string, albumTypesToInclude: set<AlbumGroup>)
      returns (r: Result<ExistingArtistPlaybackContext, FetchError>)
      ensures r.Ok? <==> artistId in catalog.artists
      ensures r.Ok? ==>
        && fresh(r.value)
        && r.value.spotifyContext == catalog.artists[artistId]
        && r.value.albumGroupsToInclude == albumTypesToInclude
        && r.value.playbackOrder == []
      ensures r.Err? ==> r.error == ArtistUnavailable(artistId)
    {
      if artistId !in catalog.artists {
        return Err(ArtistUnavailable(artistId));
      }
      var context := new ExistingArtistPlaybackContext(catalog.artists[artistId], albumTypesToInclude);
      return Ok(context);
    }

    /**
     * Load the artist's tracks: list and deduplicate the albums, fetch, filter
     * and pair each album's tracks, collect the pairs as they arrive and only
     * then replace the playback order. A failed request leaves it unchanged.
     */
    method FullyLoad(catalog: RemoteCatalog) returns (outcome: Outcome<FetchError>)
      modifies this`playbackOrder
      ensures LoadParts(spotifyContext, albumGroupsToInclude, catalog).Ok? ==>
        outcome == Pass && IsInterleaving(playbackOrder, LoadParts(spotifyContext, albumGroupsToInclude, catalog).value)
      ensures LoadParts(spotifyContext, albumGroupsToInclude, catalog).Err? ==>
        outcome == Fail(LoadParts(spotifyContext, albumGroupsToInclude, catalog).error) && playbackOrder == old(playbackOrder)
    {
      match LoadParts(spotifyContext, albumGroupsToInclude, catalog)
      case Err(e) =>
        outcome := Fail(e);
      case Ok(parts) =>
        var allTracks := MergeAsArrived(parts);
        playbackOrder := allTracks;
        outcome := Pass;
    }
  }

  class ReorderedArtistPlaybackContext {
    const spotifyContext: Artist
    const playbackOrder: seq<TrackAndAlbum>
    const baseContext: ArtistContext

    /** Takes the base's artist, keeps the supplied tracks as they are, and keeps the base. */
    constructor (baseContext: ArtistContext, reorderedTracks: seq<TrackAndAlbum>)
      ensures spotifyContext == baseContext.SpotifyContext()
      ensures playbackOrder == reorderedTracks
      ensures this.baseContext == baseContext
    {
      spotifyContext := baseContext.SpotifyContext();
      playbackOrder := reorderedTracks;
      this.baseContext := baseContext;
    }

    static method FromContextAndTracks(originalContext: ArtistContext, tracks: seq<TrackAndAlbum>)
      returns (r: ReorderedArtistPlaybackContext)
      ensures fresh(r)
      ensures r.spotifyContext == originalContext.SpotifyContext()
      ensures r.playbackOrder == tracks
      ensures r.baseContext == originalContext
    {
      r := new ReorderedArtistPlaybackContext(originalContext, tracks);
    }
  }
}
