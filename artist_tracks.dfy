/**
 * The artist-track aggregation pipeline of ExistingArtistPlaybackContext.FullyLoad
 * as functions over the catalog's answers: list the artist's albums,
 * deduplicate them, fetch each album's tracks, keep the tracks the artist is
 * credited on and pair each with its album. One sequence of pairs per album;
 * how those sequences are merged is the business of module Merge.
 */
module ArtistTracks {
  import opened Wrappers
  import opened Catalog
  import opened AlbumDistinct
  import opened Sequences
  import opened Merge

  /** The track filter: the artist's URI is among the URIs of the track's credited artists. */
  predicate PerformedBy(t: Track, artist: Artist) {
    artist.uri in t.artistUris
  }

  /** The tracks of one album the artist is credited on, every occurrence of each, in the album's track order. */
  function MatchingTracks(tracks: seq<Track>, artist: Artist): (r: seq<Track>)
    ensures forall t :: t in r <==> t in tracks && PerformedBy(t, artist)
    ensures IsSubsequence(r, tracks)
    decreases |tracks|
  {
    if tracks == [] then []
    else if PerformedBy(tracks[0], artist) then [tracks[0]] + MatchingTracks(tracks[1..], artist)
    else MatchingTracks(tracks[1..], artist)
  }

  /** The filter keeps every occurrence of a matching track and drops every occurrence of the others. */
  lemma {:induction false} MatchingTracksKeepsEveryOccurrence(tracks: seq<Track>, artist: Artist)
    ensures forall t :: multiset(MatchingTracks(tracks, artist))[t] == if PerformedBy(t, artist) then multiset(tracks)[t] else 0
    decreases |tracks|
  {
    if tracks != [] {
      MatchingTracksKeepsEveryOccurrence(tracks[1..], artist);
      assert tracks == [tracks[0]] + tracks[1..];
    }
  }

  /** One album's part of the playback order: each matching track paired with that album, in track order. */
  function AlbumPairs(album: Album, tracks: seq<Track>, artist: Artist): (r: seq<TrackAndAlbum>)
    ensures |r| == |MatchingTracks(tracks, artist)|
    ensures forall i | 0 <= i < |r| :: r[i] == TrackAndAlbum(MatchingTracks(tracks, artist)[i], album)
    ensures forall p :: p in r <==> p.album == album && p.track in tracks && PerformedBy(p.track, artist)
  {
    var matching := MatchingTracks(tracks, artist);
    var r := seq(|matching|, i requires 0 <= i < |matching| => TrackAndAlbum(matching[i], album));
    assert forall p: TrackAndAlbum | p.album == album && p.track in matching :: p in r by {
      forall p: TrackAndAlbum | p.album == album && p.track in matching
        ensures p in r
      {
        var i :| 0 <= i < |matching| && matching[i] == p.track;
        assert r[i] == p;
      }
    }
    r
  }

  /**
   * Fetch every album's tracks by the album's id, in album order. The first
   * album whose tracks cannot be fetched fails the whole fetch.
   */
  function FetchTrackLists(albums: seq<Album>, albumTracks: map<string, seq<Track>>): (r: Result<seq<seq<Track>>, FetchError>)
    ensures r.Ok? <==> forall a | a in albums :: a.id in albumTracks
    ensures r.Ok? ==> |r.value| == |albums| && forall i | 0 <= i < |albums| :: albums[i].id in albumTracks && r.value[i] == albumTracks[albums[i].id]
    ensures r.Err? ==> exists a | a in albums :: a.id !in albumTracks && r.error == TracksUnavailable(a.id)
    decreases |albums|
  {
    if albums == [] then Ok([])
    else if albums[0].id !in albumTracks then Err(TracksUnavailable(albums[0].id))
    else
      match FetchTrackLists(albums[1..], albumTracks)
      case Err(e) => Err(e)
      case Ok(rest) => Ok([albumTracks[albums[0].id]] + rest)
  }

  /** The per-album parts of the playback order, one per deduplicated album, in discovery order. */
  function Parts(albums: seq<Album>, lists: seq<seq<Track>>, artist: Artist): seq<seq<TrackAndAlbum>>
    requires |lists| == |albums|
  {
    seq(|albums|, i requires 0 <= i < |albums| => AlbumPairs(albums[i], lists[i], artist))
  }

  /** The deduplicated album listing of `artist`, restricted to `groups`, when the listing can be fetched. */
  function LoadedAlbums(artist: Artist, groups: set<AlbumGroup>, catalog: RemoteCatalog): Result<seq<Album>, FetchError> {
    var request := AlbumsRequest(artist.id, groups);
    if request !in catalog.artistAlbums then Err(AlbumsUnavailable(artist.id))
    else Ok(Distinct(catalog.artistAlbums[request]))
  }

  /**
   * The pipeline up to the merge: the album listing, deduplicated, each album's
   * tracks fetched, filtered and paired. Any failed request fails the load.
   */
  function LoadParts(artist: Artist, groups: set<AlbumGroup>, catalog: RemoteCatalog): Result<seq<seq<TrackAndAlbum>>, FetchError> {
    match LoadedAlbums(artist, groups, catalog)
    case Err(e) => Err(e)
    case Ok(albums) =>
      match FetchTrackLists(albums, catalog.albumTracks)
      case Err(e) => Err(e)
      case Ok(lists) => Ok(Parts(albums, lists, artist))
  }

  /** The number of tracks of `albums` the artist is credited on. */
  function MatchingTotal(albums: seq<Album>, albumTracks: map<string, seq<Track>>, artist: Artist): nat
    requires forall a | a in albums :: a.id in albumTracks
    decreases |albums|
  {
    if albums == [] then 0
    else
      var last := albums[|albums| - 1];
      MatchingTotal(albums[..|albums| - 1], albumTracks, artist) + |MatchingTracks(albumTracks[last.id], artist)|
  }

  lemma {:induction false} PartsLength(albums: seq<Album>, lists: seq<seq<Track>>, albumTracks: map<string, seq<Track>>, artist: Artist)
    requires |lists| == |albums|
    requires forall i | 0 <= i < |albums| :: albums[i].id in albumTracks && lists[i] == albumTracks[albums[i].id]
    ensures forall a | a in albums :: a.id in albumTracks
    ensures |Flatten(Parts(albums, lists, artist))| == MatchingTotal(albums, albumTracks, artist)
    decreases |albums|
  {
    if albums != [] {
      var n := |albums|;
      PartsLength(albums[..n - 1], lists[..n - 1], albumTracks, artist);
      assert Parts(albums, lists, artist)[..n - 1] == Parts(albums[..n - 1], lists[..n - 1], artist);
    }
  }

  /** When the load succeeds, the album listing and every deduplicated album's tracks could be fetched. */
  lemma LoadSucceeds(artist: Artist, groups: set<AlbumGroup>, catalog: RemoteCatalog)
    ensures LoadParts(artist, groups, catalog).Ok? <==>
      AlbumsRequest(artist.id, groups) in catalog.artistAlbums &&
      forall a | a in Distinct(catalog.artistAlbums[AlbumsRequest(artist.id, groups)]) :: a.id in catalog.albumTracks
  {
  }

  /** A pair is in the concatenated parts exactly when it pairs an album with one of its matching tracks. */
  lemma PartsMembership(albums: seq<Album>, lists: seq<seq<Track>>, albumTracks: map<string, seq<Track>>, artist: Artist, p: TrackAndAlbum)
    requires |lists| == |albums|
    requires forall i | 0 <= i < |albums| :: albums[i].id in albumTracks && lists[i] == albumTracks[albums[i].id]
    ensures p in Flatten(Parts(albums, lists, artist)) <==>
      p.album in albums && p.album.id in albumTracks && p.track in albumTracks[p.album.id] && PerformedBy(p.track, artist)
  {
    var parts := Parts(albums, lists, artist);
    InFlatten(p, parts);
    if p.album in albums && p.album.id in albumTracks && p.track in albumTracks[p.album.id] && PerformedBy(p.track, artist) {
      var i :| 0 <= i < |albums| && albums[i] == p.album;
      assert p in parts[i];
    }
  }

  /**
   * Whatever order the merge produces, the loaded playback order holds exactly
   * the pairs of a deduplicated album with one of its tracks the artist is
   * credited on, and as many of them as those albums have matching tracks.
   */
  lemma LoadedOrderContents(artist: Artist, groups: set<AlbumGroup>, catalog: RemoteCatalog, order: seq<TrackAndAlbum>)
    requires LoadParts(artist, groups, catalog).Ok?
    requires IsInterleaving(order, LoadParts(artist, groups, catalog).value)
    ensures LoadedAlbums(artist, groups, catalog).Ok?
    ensures var albums := LoadedAlbums(artist, groups, catalog).value;
      && (forall a | a in albums :: a.id in catalog.albumTracks)
      && (forall p :: p in order <==>
            p.album in albums && p.track in catalog.albumTracks[p.album.id] && PerformedBy(p.track, artist))
      && |order| == MatchingTotal(albums, catalog.albumTracks, artist)
  {
    var albums := LoadedAlbums(artist, groups, catalog).value;
    var lists := FetchTrackLists(albums, catalog.albumTracks).value;
    var parts := Parts(albums, lists, artist);
    assert LoadParts(artist, groups, catalog).value == parts;
    InterleavingMultiset(order, parts);
    PartsLength(albums, lists, catalog.albumTracks, artist);
    forall p: TrackAndAlbum
      ensures p in order <==>
        p.album in albums && p.track in catalog.albumTracks[p.album.id] && PerformedBy(p.track, artist)
    {
      assert p in order <==> p in multiset(Flatten(parts));
      PartsMembership(albums, lists, catalog.albumTracks, artist, p);
    }
  }

  /** Every pair of a loaded playback order holds a track the context's artist is credited on. */
  lemma LoadedTracksArePerformedByArtist(artist: Artist, groups: set<AlbumGroup>, catalog: RemoteCatalog, order: seq<TrackAndAlbum>)
    requires LoadParts(artist, groups, catalog).Ok?
    requires IsInterleaving(order, LoadParts(artist, groups, catalog).value)
    ensures forall p | p in order :: PerformedBy(p.track, artist)
  {
    LoadedOrderContents(artist, groups, catalog, order);
  }

  /** The loaded playback order is a permutation of the album-ordered concatenation of the parts. */
  lemma LoadedOrderIsPermutation(artist: Artist, groups: set<AlbumGroup>, catalog: RemoteCatalog, order: seq<TrackAndAlbum>)
    requires LoadParts(artist, groups, catalog).Ok?
    requires IsInterleaving(order, LoadParts(artist, groups, catalog).value)
    ensures multiset(order) == multiset(Flatten(LoadParts(artist, groups, catalog).value))
  {
    InterleavingMultiset(order, LoadParts(artist, groups, catalog).value);
  }
}
