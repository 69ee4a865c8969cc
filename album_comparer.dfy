/**
 * SimpleAlbumEqualityComparer: two albums are the same release when their
 * name, release date and album type agree; the catalog id plays no part.
 */
module AlbumComparer {
  import opened Catalog

  /** The equivalence key of an album: every field except its catalog id. */
  datatype AlbumKey = AlbumKey(name: string, releaseDate: string, albumType: string)

  function Key(a: Album): AlbumKey {
    AlbumKey(a.name, a.releaseDate, a.albumType)
  }

  /** The comparer's Equals: field-wise comparison of name, release date and album type. */
  predicate SameAlbum(x: Album, y: Album) {
    x.name == y.name && x.releaseDate == y.releaseDate && x.albumType == y.albumType
  }

  /**
   * The comparer's GetHashCode: the hash of the (name, release date, album type)
   * tuple. Tuple hashing belongs to the runtime, so it is a parameter.
   */
  function HashCode(a: Album, tupleHash: AlbumKey -> int): int {
    tupleHash(Key(a))
  }

  /** Two albums are the same release exactly when their keys are equal. */
  lemma SameAlbumIsKeyEquality(x: Album, y: Album)
    ensures SameAlbum(x, y) <==> Key(x) == Key(y)
  {
  }

  /** Changing an album's catalog id changes neither what it equals nor its hash. */
  lemma ComparerIgnoresId(x: Album, y: Album, otherId: string, tupleHash: AlbumKey -> int)
    ensures SameAlbum(x.(id := otherId), y) <==> SameAlbum(x, y)
    ensures SameAlbum(x, x.(id := otherId))
    ensures HashCode(x.(id := otherId), tupleHash) == HashCode(x, tupleHash)
  {
  }

  /** SameAlbum is reflexive, symmetric and transitive. */
  lemma SameAlbumIsEquivalence(x: Album, y: Album, z: Album)
    ensures SameAlbum(x, x)
    ensures SameAlbum(x, y) ==> SameAlbum(y, x)
    ensures SameAlbum(x, y) && SameAlbum(y, z) ==> SameAlbum(x, z)
  {
  }

  /** Albums that compare equal get equal hash codes, whatever the tuple hash is. */
  lemma HashCodeAgreesWithEquals(x: Album, y: Album, tupleHash: AlbumKey -> int)
    requires SameAlbum(x, y)
    ensures HashCode(x, tupleHash) == HashCode(y, tupleHash)
  {
  }
}
