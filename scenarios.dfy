/**
 * A worked load: the same release listed twice under two catalog ids, each
 * listing with one track by the artist and one by somebody else only.
 */
module Scenarios {
  import opened Wrappers
  import opened Catalog
  import opened AlbumDistinct
  import opened Sequences
  import opened Merge
  import opened ArtistTracks

  const artistA := Artist("a", "A", "spotify:artist:a")
  const otherUri: Uri := "spotify:artist:b"
  const firstListing := Album("album-1", "Album1", "2020-01-01", "album")
  const secondListing := Album("album-2", "Album1", "2020-01-01", "album")
  const trackByA := Track("t1", [artistA.uri])
  const trackByOther := Track("t2", [otherUri])
  const trackByAAgain := Track("t3", [artistA.uri])
  const trackByOtherAgain := Track("t4", [otherUri])
  const groups: set<AlbumGroup> := {IncludeAlbum}

  const duplicateCatalog := RemoteCatalog(
    map["a" := artistA],
    map[AlbumsRequest("a", groups) := [firstListing, secondListing]],
    map["album-1" := [trackByA, trackByOther], "album-2" := [trackByAAgain, trackByOtherAgain]])

  /**
   * The load succeeds; only the first listing survives deduplication, and its
   * one track by the artist is the only pair.
   */
  lemma DuplicateReleaseLoadParts()
    ensures LoadParts(artistA, groups, duplicateCatalog) == Ok([[TrackAndAlbum(trackByA, firstListing)]])
  {
    var pair := TrackAndAlbum(trackByA, firstListing);
    var listing := [firstListing, secondListing];
    assert listing[1..] == [secondListing];
    assert AlbumComparer.Key(secondListing) in {} + {AlbumComparer.Key(firstListing)};
    assert DistinctFrom([secondListing], {} + {AlbumComparer.Key(firstListing)}) == [];
    assert Distinct(listing) == [firstListing];
    assert LoadedAlbums(artistA, groups, duplicateCatalog) == Ok([firstListing]);
    var tracks := [trackByA, trackByOther];
    assert tracks[1..] == [trackByOther];
    assert MatchingTracks([trackByOther], artistA) == [];
    assert MatchingTracks(tracks, artistA) == [trackByA];
    assert duplicateCatalog.albumTracks[firstListing.id] == tracks;
    assert [firstListing][1..] == [];
    assert FetchTrackLists([], duplicateCatalog.albumTracks) == Ok([]);
    assert [tracks] + [] == [tracks];
    assert FetchTrackLists([firstListing], duplicateCatalog.albumTracks) == Ok([tracks]);
    assert LoadParts(artistA, groups, duplicateCatalog) == Ok(Parts([firstListing], [tracks], artistA));
    var albumPart := AlbumPairs(firstListing, tracks, artistA);
    assert |albumPart| == 1 && albumPart[0] == pair;
    assert albumPart == [pair];
    assert Parts([firstListing], [tracks], artistA) == [[pair]];
  }

  /** The load succeeds, and whatever the merge order, the loaded playback order is the single pair of the first listing. */
  lemma DuplicateReleaseLoadsOneTrack()
    ensures LoadParts(artistA, groups, duplicateCatalog).Ok?
    ensures forall order | IsInterleaving(order, LoadParts(artistA, groups, duplicateCatalog).value) ::
      order == [TrackAndAlbum(trackByA, firstListing)]
  {
    var pair := TrackAndAlbum(trackByA, firstListing);
    var parts := [[pair]];
    DuplicateReleaseLoadParts();
    assert Flatten(parts) == Flatten(parts[..0]) + [pair];
    forall order | IsInterleaving(order, parts)
      ensures order == [pair]
    {
      InterleavingMultiset(order, parts);
      assert |order| == 1 && order[0] in multiset(order);
    }
  }
}
