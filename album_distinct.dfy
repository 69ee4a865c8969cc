/**
 * Distinct over the album listing with SimpleAlbumEqualityComparer: albums are
 * read in listing order, and an album is yielded unless an album with the same
 * key was yielded before; `seen` is the set of keys already yielded.
 */
module AlbumDistinct {
  import opened Wrappers
  import opened Catalog
  import opened AlbumComparer
  import opened Sequences

  function DistinctFrom(albums: seq<Album>, seen: set<AlbumKey>): seq<Album>
    decreases |albums|
  {
    if albums == [] then []
    else if Key(albums[0]) in seen then DistinctFrom(albums[1..], seen)
    else [albums[0]] + DistinctFrom(albums[1..], seen + {Key(albums[0])})
  }

  function Distinct(albums: seq<Album>): seq<Album> {
    DistinctFrom(albums, {})
  }

  /** The keys of the albums in a listing. */
  function Keys(albums: seq<Album>): set<AlbumKey> {
    set a | a in albums :: Key(a)
  }

  /** No two albums in the sequence are the same release. */
  predicate UniqueKeys(albums: seq<Album>) {
    forall i, j | 0 <= i < j < |albums| :: Key(albums[i]) != Key(albums[j])
  }

  /** The first album of the listing with key `k`, if there is one. */
  function FirstWithKey(albums: seq<Album>, k: AlbumKey): Option<Album>
    decreases |albums|
  {
    if albums == [] then None
    else if Key(albums[0]) == k then Some(albums[0])
    else FirstWithKey(albums[1..], k)
  }

  lemma {:induction false} DistinctFromProperties(albums: seq<Album>, seen: set<AlbumKey>)
    ensures UniqueKeys(DistinctFrom(albums, seen))
    ensures Keys(DistinctFrom(albums, seen)) == Keys(albums) - seen
    ensures forall a | a in DistinctFrom(albums, seen) :: FirstWithKey(albums, Key(a)) == Some(a)
    ensures IsSubsequence(DistinctFrom(albums, seen), albums)
    decreases |albums|
  {
    if albums != [] {
      var head, tail := albums[0], albums[1..];
      var k := Key(head);
      assert albums == [head] + tail;
      assert Keys(albums) == {k} + Keys(tail);
      if k in seen {
        DistinctFromProperties(tail, seen);
        var d := DistinctFrom(tail, seen);
        forall a | a in d
          ensures FirstWithKey(albums, Key(a)) == Some(a)
        {
          assert Key(a) in Keys(d);
        }
        SubsequenceOfTail(d, albums);
      } else {
        DistinctFromProperties(tail, seen + {k});
        var rest := DistinctFrom(tail, seen + {k});
        var d := [head] + rest;
        assert d[1..] == rest;
        forall j | 0 <= j < |rest|
          ensures Key(rest[j]) != k
        {
          assert Key(rest[j]) in Keys(rest);
        }
        forall a | a in d
          ensures FirstWithKey(albums, Key(a)) == Some(a)
        {
          if a != head {
            assert Key(a) in Keys(rest);
          }
        }
        assert Keys(d) == {k} + Keys(rest);
      }
    }
  }

  /** No two albums that Distinct keeps are the same release. */
  lemma DistinctKeysAreUnique(albums: seq<Album>)
    ensures UniqueKeys(Distinct(albums))
  {
    DistinctFromProperties(albums, {});
  }

  /** Every release in the listing is kept, and nothing else: the kept albums have exactly the listing's keys. */
  lemma DistinctKeepsEveryRelease(albums: seq<Album>)
    ensures Keys(Distinct(albums)) == Keys(albums)
    ensures forall a | a in Distinct(albums) :: a in albums
  {
    DistinctFromProperties(albums, {});
    forall a | a in Distinct(albums)
      ensures a in albums
    {
      FirstWithKeyIsIn(albums, Key(a));
    }
  }

  /** The album kept for a release is the first album of the listing with its key, and every such first album is kept. */
  lemma DistinctKeepsFirstOccurrence(albums: seq<Album>)
    ensures forall a | a in Distinct(albums) :: FirstWithKey(albums, Key(a)) == Some(a)
    ensures forall k | k in Keys(albums) :: FirstWithKey(albums, k).Some? && FirstWithKey(albums, k).value in Distinct(albums)
  {
    DistinctFromProperties(albums, {});
    var d := Distinct(albums);
    forall k | k in Keys(albums)
      ensures FirstWithKey(albums, k).Some? && FirstWithKey(albums, k).value in d
    {
      assert k in Keys(d);
      var a :| a in d && Key(a) == k;
    }
  }

  /** Distinct keeps the albums in listing order: its output is a subsequence of the listing. */
  lemma DistinctIsSubsequence(albums: seq<Album>)
    ensures IsSubsequence(Distinct(albums), albums)
  {
    DistinctFromProperties(albums, {});
  }

  /** What FirstWithKey finds is in the listing and has the key asked for. */
  lemma {:induction false} FirstWithKeyIsIn(albums: seq<Album>, k: AlbumKey)
    ensures FirstWithKey(albums, k).Some? ==> FirstWithKey(albums, k).value in albums && Key(FirstWithKey(albums, k).value) == k
    ensures k in Keys(albums) ==> FirstWithKey(albums, k).Some?
    decreases |albums|
  {
    if albums != [] {
      FirstWithKeyIsIn(albums[1..], k);
      assert albums == [albums[0]] + albums[1..];
      assert Keys(albums) == {Key(albums[0])} + Keys(albums[1..]);
    }
  }
}
