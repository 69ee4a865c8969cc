# Artist playback contexts, modelled in Dafny

This project models the artist playback contexts of the Spotify playback
modifier (`ArtistPlaybackContext.cs`):

- `SimpleAlbumEqualityComparer`: two albums are the same release when name,
  release date and album type agree; the catalog id is ignored.
- `ExistingArtistPlaybackContext.FullyLoad` loads a playback order for an
  artist. It lists the artist's albums and deduplicates them with `Distinct`
  and the comparer. It fetches each album's tracks and keeps those whose
  credited artists include the context's artist. Each kept track is paired
  with its album. The pairs are collected as they arrive, and only then
  assigned to the playback order.
- `ReorderedArtistPlaybackContext` takes a base context's artist, keeps the
  caller's track sequence verbatim as its playback order, and keeps the base.

The remote catalog is data (`Catalog.RemoteCatalog`). It holds artists by id,
each album listing with all its pages concatenated, and each album's tracks
keyed by album id. A key missing from one of these maps is a failed request.

The outer `SelectMany` merges the per-album streams in whatever order their
pages arrive. So the loaded order is specified as any interleaving that keeps
each album's track order (`Merge.IsInterleaving`). It is not specified as
album order. `Merge.MergeAsArrived` collects the pairs and chooses which album
delivers next nondeterministically. Lemmas then prove what every such order
has in common: its members, its length, and that it is a permutation of the
album-ordered concatenation.

Two behaviours of the code are worth stating outright, and the model keeps
both:

- The merged pairs arrive in completion order, not album discovery order
  (`ArtistPlaybackContext.cs:45-50`); nothing reassembles them afterwards.
- Nothing guards against a second `FullyLoad`: a second load simply replaces
  `PlaybackOrder` (line 52).

Modules: `Wrappers`, `Catalog` (entities), `AlbumComparer`, `AlbumDistinct`,
`Sequences` (subsequence, concatenation), `Merge`, `ArtistTracks` (the pure
pipeline), `ArtistPlaybackContexts` (the classes) and `Scenarios` (one worked
load).

## Model

| member | source | states |
|---|---|---|
| AlbumComparer.SameAlbumIsKeyEquality | SpotifyProject/SpotifyPlaybackModifier/PlaybackContexts/ArtistPlaybackContext.cs:73-76 | two albums compare equal exactly when their (name, release date, album type) keys are equal |
| AlbumComparer.ComparerIgnoresId | SpotifyProject/SpotifyPlaybackModifier/PlaybackContexts/ArtistPlaybackContext.cs:73-81 | changing an album's catalog id changes neither what it compares equal to nor its hash code |
| AlbumComparer.SameAlbumIsEquivalence | SpotifyProject/SpotifyPlaybackModifier/PlaybackContexts/ArtistPlaybackContext.cs:75 | album equality is reflexive, symmetric and transitive |
| AlbumComparer.HashCodeAgreesWithEquals | SpotifyProject/SpotifyPlaybackModifier/PlaybackContexts/ArtistPlaybackContext.cs:73-81 | albums that compare equal get equal hash codes, whatever the runtime's tuple hash is |
| AlbumDistinct.DistinctKeysAreUnique | SpotifyProject/SpotifyPlaybackModifier/PlaybackContexts/ArtistPlaybackContext.cs:44 | no two albums kept by Distinct share an equivalence key |
| AlbumDistinct.DistinctKeepsEveryRelease | SpotifyProject/SpotifyPlaybackModifier/PlaybackContexts/ArtistPlaybackContext.cs:44 | the kept albums have exactly the keys of the listing, and every kept album comes from the listing |
| AlbumDistinct.DistinctKeepsFirstOccurrence | SpotifyProject/SpotifyPlaybackModifier/PlaybackContexts/ArtistPlaybackContext.cs:44 | each kept album is the first album of the listing with its key, and the first album of every key is kept |
| AlbumDistinct.DistinctIsSubsequence | SpotifyProject/SpotifyPlaybackModifier/PlaybackContexts/ArtistPlaybackContext.cs:44 | the kept albums are a subsequence of the listing, so listing order is kept |
| AlbumDistinct.FirstWithKeyIsIn | SpotifyProject/SpotifyPlaybackModifier/PlaybackContexts/ArtistPlaybackContext.cs:44 | the first album found for a key is in the listing and has that key; every key of the listing has one |
| ArtistTracks.MatchingTracks | SpotifyProject/SpotifyPlaybackModifier/PlaybackContexts/ArtistPlaybackContext.cs:48 | a track is kept exactly when it is one of the album's tracks and the artist's URI is among its credited artists; the kept tracks are a subsequence of the album's, so in album track order |
| ArtistTracks.MatchingTracksKeepsEveryOccurrence | SpotifyProject/SpotifyPlaybackModifier/PlaybackContexts/ArtistPlaybackContext.cs:48 | the filter keeps every occurrence of a matching track and none of the others: multiset counts equal the album's for matching tracks and zero otherwise |
| ArtistTracks.AlbumPairs | SpotifyProject/SpotifyPlaybackModifier/PlaybackContexts/ArtistPlaybackContext.cs:48-49 | the i-th pair of an album's part pairs the i-th matching track with that album, so there is one pair per matching track in track order; a pair is in the part exactly when it pairs that album with one of its matching tracks |
| ArtistTracks.FetchTrackLists | SpotifyProject/SpotifyPlaybackModifier/PlaybackContexts/ArtistPlaybackContext.cs:46-47 | the fetch succeeds exactly when every album's tracks are available; then the i-th list is the i-th album's tracks by its id; a failure names an album whose tracks are unavailable |
| ArtistTracks.LoadSucceeds | SpotifyProject/SpotifyPlaybackModifier/PlaybackContexts/ArtistPlaybackContext.cs:43-50 | the load succeeds exactly when the album listing and the tracks of every deduplicated album can be fetched |
| ArtistTracks.PartsMembership | SpotifyProject/SpotifyPlaybackModifier/PlaybackContexts/ArtistPlaybackContext.cs:45-49 | a pair is in the concatenated parts exactly when its album is one of the albums and its track is one of that album's tracks the artist is credited on |
| ArtistTracks.PartsLength | SpotifyProject/SpotifyPlaybackModifier/PlaybackContexts/ArtistPlaybackContext.cs:45-49 | the concatenated parts are as long as the total number of matching tracks over the albums |
| ArtistTracks.LoadedOrderContents | SpotifyProject/SpotifyPlaybackModifier/PlaybackContexts/ArtistPlaybackContext.cs:44-52 | in any merge order, a pair is in the loaded order exactly when it pairs a deduplicated album with one of its tracks the artist is credited on; the order's length is the sum of the albums' matching-track counts |
| ArtistTracks.LoadedTracksArePerformedByArtist | SpotifyProject/SpotifyPlaybackModifier/PlaybackContexts/ArtistPlaybackContext.cs:48-52 | every pair in a loaded playback order holds a track that credits the context's artist |
| ArtistTracks.LoadedOrderIsPermutation | SpotifyProject/SpotifyPlaybackModifier/PlaybackContexts/ArtistPlaybackContext.cs:45-52 | the loaded order is, as a multiset, the album-ordered concatenation of the per-album parts |
| Merge.MergeAsArrived | SpotifyProject/SpotifyPlaybackModifier/PlaybackContexts/ArtistPlaybackContext.cs:45-50 | whichever album delivers next, the collected list is an interleaving of the per-album parts that keeps each part's order |
| Merge.InterleavingMultiset | SpotifyProject/SpotifyPlaybackModifier/PlaybackContexts/ArtistPlaybackContext.cs:45-50 | an interleaving of the parts has exactly their elements, with multiplicity, and the same length as their concatenation |
| Merge.FlattenIsInterleaving | SpotifyProject/SpotifyPlaybackModifier/PlaybackContexts/ArtistPlaybackContext.cs:45-50 | album discovery order is one admissible merge order |
| ArtistPlaybackContexts.ExistingArtistPlaybackContext.constructor | SpotifyProject/SpotifyPlaybackModifier/PlaybackContexts/ArtistPlaybackContext.cs:14-27 | the context holds the given artist and album groups, and an empty playback order (see Left out) |
| ArtistPlaybackContexts.ExistingArtistPlaybackContext.FromSimpleArtist | SpotifyProject/SpotifyPlaybackModifier/PlaybackContexts/ArtistPlaybackContext.cs:29-33 | a fresh unloaded context for the artist found by id, or the artist-lookup failure |
| ArtistPlaybackContexts.ExistingArtistPlaybackContext.FullyLoad | SpotifyProject/SpotifyPlaybackModifier/PlaybackContexts/ArtistPlaybackContext.cs:37-53 | on success the playback order is an interleaving of the per-album parts of the deduplicated albums; on a failed request the error is returned and the playback order is unchanged |
| ArtistPlaybackContexts.ReorderedArtistPlaybackContext.constructor | SpotifyProject/SpotifyPlaybackModifier/PlaybackContexts/ArtistPlaybackContext.cs:59-63 | the artist is the base's, the playback order is exactly the supplied sequence with no validation, and the base is the given one |
| ArtistPlaybackContexts.ReorderedArtistPlaybackContext.FromContextAndTracks | SpotifyProject/SpotifyPlaybackModifier/PlaybackContexts/ArtistPlaybackContext.cs:67-68 | a fresh reordered context with the base's artist, exactly the supplied tracks and the given base |
| Scenarios.DuplicateReleaseLoadParts | SpotifyProject/SpotifyPlaybackModifier/PlaybackContexts/ArtistPlaybackContext.cs:43-49 | with one release listed twice under two ids, each listing holding one track by the artist and one without, the load succeeds with a single part holding the first listing's track by the artist |
| Scenarios.DuplicateReleaseLoadsOneTrack | SpotifyProject/SpotifyPlaybackModifier/PlaybackContexts/ArtistPlaybackContext.cs:44-52 | in that case the load succeeds and every admissible merge order is exactly the single pair of the first listing |

## Left out

- Remote calls (`Artists.Get`, `Artists.GetAlbums`, `Albums.GetTracks`, `Paginate`) are data in `Catalog.RemoteCatalog`. Each listing stands for all of its pages concatenated, and a failed page fails the whole request.
- The album-group filter is applied by the catalog service. The model passes the groups in the album-listing request but does not check the returned albums against them.
- Page size (`Limit = 50`), the market, `SpotifyConfiguration` and logging are configuration and I/O with no logic.
- Rx scheduling and concurrency are modelled only by their effect: a nondeterministic choice of which album delivers its next pair.
- ArtistPlaybackContexts.ExistingArtistPlaybackContext.FullyLoad: when several requests fail, the model reports the album listing failure, or else the first failing album in discovery order. The source surfaces whichever failure is observed first in time.
- AlbumComparer.HashCodeAgreesWithEquals: the runtime's tuple hash is a parameter, so no concrete hash value is modelled.
- Null albums and null album fields (the `?.` in `Equals`) are not modelled; album fields are plain strings.
- The base class `SpotifyPlaybackQueueBase` and the context interfaces are not part of this model. Only the playback order, the artist and the base context are modelled. A reordered context's base is any artist context (`ArtistPlaybackContexts.ArtistContext`).
- ArtistPlaybackContexts.ReorderedArtistPlaybackContext.constructor: the source stores the caller's `IEnumerable` by reference, so a lazy or later-mutated enumerable changes what `PlaybackOrder` yields; the model stores a value snapshot of the sequence.
- ArtistPlaybackContexts.ExistingArtistPlaybackContext.constructor: lines 14-27 never set `PlaybackOrder`; its initial value belongs to `SpotifyPlaybackQueueBase`, which is not part of this model, and the model assumes it is empty.
