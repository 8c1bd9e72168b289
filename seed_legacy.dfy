/**
 * `generateInitialData` of the older data layer (services/data.ts): twenty
 * tracks first, then four albums, each collecting by title filter the tracks
 * whose `album` field names it.
 */
module LegacySeedData {
  import opened Wrappers
  import opened Text
  import opened Seqs
  import opened Types
  import opened SeedCatalog

  const Covers: seq<string> := [
    "https://picsum.photos/300/300?random=1",
    "https://picsum.photos/300/300?random=2",
    "https://picsum.photos/300/300?random=3",
    "https://picsum.photos/300/300?random=4",
    "https://picsum.photos/300/300?random=5"]

  /** The fields the track loop writes for track `i`. */
  predicate IsSeedTrack(t: Track, i: nat, sinScaled: int -> real) {
    && t.id == TrackId(i)
    && t.title == TrackTitle(i)
    && t.artist == Artists[i % 4]
    && t.album == AlbumTitle(AlbumOf(i))
    && t.cover == Covers[i % 5]
    && t.duration == SeedDuration(sinScaled, i)
    && t.url == SampleMp3
    && t.plays == SeedPlays(sinScaled, i)
    && t.genre == Genres[i % 5]
    && !t.explicit && t.feat == None && t.hueq == None && t.mainArtists == []
  }

  /** `t => t.album === title`. */
  function OnAlbum(title: string): Track -> bool {
    (t: Track) => t.album == title
  }

  /** Track `i` (1-based) carries id `t<i>` and the title of album `(i % 4) + 1`. */
  predicate Numbered(ts: seq<Track>) {
    forall j :: 0 <= j < |ts| ==> ts[j].id == TrackId(j + 1) && ts[j].album == AlbumTitle(AlbumOf(j + 1))
  }

  /** The title filter of album `k` keeps track `n` exactly when `k` is its album. */
  lemma FilterOne(t: Track, n: nat, k: nat)
    requires t.id == TrackId(n) && t.album == AlbumTitle(AlbumOf(n))
    ensures Ids(Filter([t], OnAlbum(AlbumTitle(k)))) == if AlbumOf(n) == k then [TrackId(n)] else []
  {
    NamesInjective(AlbumOf(n), k);
    assert Filter([t], OnAlbum(AlbumTitle(k))) == if AlbumOf(n) == k then [t] else [];
  }

  /** Filtering the first `n` tracks by the title of album `k` collects exactly album `k`'s members. */
  lemma {:induction false} AlbumFilter(ts: seq<Track>, k: nat, n: nat)
    requires Numbered(ts) && n <= |ts| && 1 <= k <= AlbumCount
    ensures Ids(Filter(ts[..n], OnAlbum(AlbumTitle(k)))) == Members(k, n)
  {
    if n == 0 {
      assert ts[..n] == [];
    } else {
      AlbumFilter(ts, k, n - 1);
      MembersStep(k, n);
      assert ts[..n] == ts[..n - 1] + [ts[n - 1]];
      FilterAppend(ts[..n - 1], [ts[n - 1]], OnAlbum(AlbumTitle(k)));
      IdsAppend(Filter(ts[..n - 1], OnAlbum(AlbumTitle(k))), Filter([ts[n - 1]], OnAlbum(AlbumTitle(k))));
      FilterOne(ts[n - 1], n, k);
    }
  }

  /** Over the whole catalogue, the title filter of album `k` collects exactly its members. */
  lemma AlbumGroup(ts: seq<Track>, k: nat)
    requires Numbered(ts) && |ts| == TrackCount && 1 <= k <= AlbumCount
    ensures Ids(Filter(ts, OnAlbum(AlbumTitle(k)))) == Members(k, TrackCount)
  {
    AlbumFilter(ts, k, TrackCount);
    assert ts[..TrackCount] == ts;
  }

  /** The album record the album loop pushes for album `k` with the collected ids. */
  function AlbumRecord(k: nat, trackIds: seq<string>): Album
    requires 1 <= k <= AlbumCount
  {
    Album(AlbumId(k), AlbumTitle(k), Artists[k % 4], [], Some(Covers[k]),
          trackIds, 2020 + k, None, Some(Labels[k % 4]), None, [])
  }

  /** Album `k` as generated: its record holding exactly its members. */
  function SeedAlbum(k: nat): Album
    requires 1 <= k <= AlbumCount
  {
    AlbumRecord(k, Members(k, TrackCount))
  }

  /** The track loop of `generateInitialData`: tracks `t1` to `t20`. */
  method SeedTracks(sinScaled: int -> real) returns (tracks: seq<Track>)
    ensures |tracks| == TrackCount
    ensures forall j :: 0 <= j < TrackCount ==> IsSeedTrack(tracks[j], j + 1, sinScaled)
  {
    tracks := [];
    var i := 1;
    while i <= TrackCount
      invariant 1 <= i <= TrackCount + 1
      invariant |tracks| == i - 1
      invariant forall j :: 0 <= j < |tracks| ==> IsSeedTrack(tracks[j], j + 1, sinScaled)
    {
      var artist := Artists[i % |Artists|];
      var genre := Genres[i % |Genres|];
      tracks := tracks + [Track(TrackId(i), TrackTitle(i), artist, AlbumTitle(i % 4 + 1), Covers[i % 5],
                                SeedDuration(sinScaled, i), SampleMp3, SeedPlays(sinScaled, i), genre,
                                false, None, None, [])];
      i := i + 1;
    }
  }

  /** The album loop of `generateInitialData`: albums `a1` to `a4`, grouping the tracks by title. */
  lemma PushAlbum(albums: seq<Album>, k: nat, ids: seq<string>)
    requires 1 <= k <= AlbumCount && |albums| == k - 1 && ids == Members(k, TrackCount)
    requires forall m :: 0 <= m < |albums| ==> albums[m] == SeedAlbum(m + 1)
    ensures forall m :: 0 <= m < k ==> (albums + [AlbumRecord(k, ids)])[m] == SeedAlbum(m + 1)
  {
  }

  method GroupAlbums(tracks: seq<Track>) returns (albums: seq<Album>)
    requires |tracks| == TrackCount && Numbered(tracks)
    ensures |albums| == AlbumCount
    ensures forall m :: 0 <= m < AlbumCount ==> albums[m] == SeedAlbum(m + 1)
  {
    albums := [];
    var k := 1;
    while k <= AlbumCount
      invariant 1 <= k <= AlbumCount + 1
      invariant |albums| == k - 1
      invariant forall m :: 0 <= m < |albums| ==> albums[m] == SeedAlbum(m + 1)
    {
      var albumTracks := Ids(Filter(tracks, OnAlbum(AlbumTitle(k))));
      AlbumGroup(tracks, k);
      PushAlbum(albums, k, albumTracks);
      albums := albums + [AlbumRecord(k, albumTracks)];
      k := k + 1;
    }
  }

  /**
   * `generateInitialData`: twenty tracks with their seeded durations and plays,
   * and four albums that partition them.
   */
  method GenerateInitialData(sinScaled: int -> real) returns (tracks: seq<Track>, albums: seq<Album>)
    ensures |tracks| == TrackCount
    ensures forall j :: 0 <= j < TrackCount ==> IsSeedTrack(tracks[j], j + 1, sinScaled)
    ensures forall j :: 0 <= j < TrackCount ==>
      180.0 <= tracks[j].duration <= 299.0 && tracks[j].plays <= 499999
    ensures |albums| == AlbumCount
    ensures forall m :: 0 <= m < AlbumCount ==> albums[m] == SeedAlbum(m + 1)
    ensures forall i, m :: 1 <= i <= TrackCount && 0 <= m < AlbumCount ==>
      (TrackId(i) in albums[m].trackIds <==> m + 1 == AlbumOf(i))
    ensures forall m :: 0 <= m < AlbumCount ==> |albums[m].trackIds| == 5
  {
    tracks := SeedTracks(sinScaled);
    albums := GroupAlbums(tracks);
    Partition();
  }
}
