/**
 * The catalog entities the artist playback contexts work with, and the remote
 * catalog itself as plain data: what the artist, album-listing and album-track
 * requests return. A request whose key is missing from the corresponding map
 * is a request that failed.
 */
module Catalog {

  type Uri = string

  /** A full artist: its id (used for the album listing), name and URI (used for the track filter). */
  datatype Artist = Artist(id: string, name: string, uri: Uri)

  /** The album groups an album listing can be restricted to. */
  datatype AlbumGroup = IncludeAlbum | IncludeSingle | IncludeAppearsOn | IncludeCompilation

  /**
   * A simple album: its catalog id, and the three fields that identify the
   * release (name, release date and album type).
   */
  datatype Album = Album(id: string, name: string, releaseDate: string, albumType: string)

  /** A simple track: its id and the URIs of the artists credited on it. */
  datatype Track = Track(id: string, artistUris: seq<Uri>)

  /** The unit of a playback order: a track together with the album it was fetched from. */
  datatype TrackAndAlbum = TrackAndAlbum(track: Track, album: Album)

  /** The parameters of an artist's album listing that affect what the catalog returns. */
  datatype AlbumsRequest = AlbumsRequest(artistId: string, includeGroups: set<AlbumGroup>)

  /**
   * What the remote catalog answers: artists by id, every page of an album
   * listing concatenated, and every page of an album's tracks concatenated,
   * keyed by album id.
   */
  datatype RemoteCatalog = RemoteCatalog(
    artists: map<string, Artist>,
    artistAlbums: map<AlbumsRequest, seq<Album>>,
    albumTracks: map<string, seq<Track>>)

  /** A remote request that failed; the load that issued it fails with it. */
  datatype FetchError =
    | ArtistUnavailable(artistId: string)
    | AlbumsUnavailable(artistId: string)
    | TracksUnavailable(albumId: string)
}
