/**
 * `generateInitialData` of the newer data layer (src/services/data.ts): four
 * albums with three covers each and no tracks, then twenty tracks, each taking
 * its album's title and first cover and appended to that album's `trackIds`;
 * and the `ApiService` placeholders.
 */
module SeedData {
  import opened Wrappers
  import opened Text
  import opened Types
  import opened SeedCatalog

  /** `https://picsum.photos/300/300?random=${n}`. */
  function CoverUrl(n: nat): string {
    "https://picsum.photos/300/300?random=" + NatToString(n)
  }

  /** The three covers of album `k`: random seeds 10k+1, 10k+2 and 10k+3. */
  function AlbumCovers(k: nat): (r: seq<string>)
    ensures |r| == 3
    ensures forall c :: 0 <= c < 3 ==> r[c] == CoverUrl(10 * k + c + 1)
  {
    [CoverUrl(10 * k + 1), CoverUrl(10 * k + 2), CoverUrl(10 * k + 3)]
  }

  /** Album `k` holding the given track ids. */
  function AlbumRecord(k: nat, trackIds: seq<string>): Album
    requires 1 <= k <= AlbumCount
  {
    Album(AlbumId(k), AlbumTitle(k), Artists[k % 4], AlbumCovers(k), None,
          trackIds, 2020 + k, None, Some(Labels[k % 4]), None, [])
  }

  /** The fields the track loop writes for track `i`. */
  predicate IsSeedTrack(t: Track, i: nat, sinScaled: int -> real) {
    && t.id == TrackId(i)
    && t.title == TrackTitle(i)
    && t.artist == Artists[i % 4]
    && t.album == AlbumTitle(AlbumOf(i))
    && t.cover == CoverUrl(10 * AlbumOf(i) + 1)
    && t.duration == SeedDuration(sinScaled, i)
    && t.url == SampleMp3
    && t.plays == SeedPlays(sinScaled, i)
    && t.genre == Genres[i % 5]
    && !t.explicit && t.feat == None && t.hueq == None && t.mainArtists == []
  }

  /** The album loop: albums `a1` to `a4`, none holding a track yet. */
  method SeedAlbums() returns (albums: seq<Album>)
    ensures |albums| == AlbumCount
    ensures forall m :: 0 <= m < AlbumCount ==> albums[m] == AlbumRecord(m + 1, [])
  {
    albums := [];
    var k := 1;
    while k <= AlbumCount
      invariant 1 <= k <= AlbumCount + 1
      invariant |albums| == k - 1
      invariant forall m :: 0 <= m < |albums| ==> albums[m] == AlbumRecord(m + 1, [])
    {
      var albumCovers := [CoverUrl(k * 10 + 1), CoverUrl(k * 10 + 2), CoverUrl(k * 10 + 3)];
      albums := albums + [Album(AlbumId(k), AlbumTitle(k), Artists[k % |Artists|], albumCovers, None,
                                [], 2020 + k, None, Some(Labels[k % |Labels|]), None, [])];
      k := k + 1;
    }
  }

  /** `albums[albumIndex].trackIds.push(trackId)` for track `i`. */
  function PushTrack(albums: seq<Album>, i: nat): (r: seq<Album>)
    requires |albums| == AlbumCount
  {
    var idx := i % 4;
    albums[idx := albums[idx].(trackIds := albums[idx].trackIds + [TrackId(i)])]
  }

  /** Appending track `i` to its album extends every album's list to tracks 1..i. */
  lemma PushTrackStep(albums: seq<Album>, i: nat)
    requires |albums| == AlbumCount && i > 0
    requires forall m :: 0 <= m < AlbumCount ==> albums[m] == AlbumRecord(m + 1, Members(m + 1, i - 1))
    ensures forall m :: 0 <= m < AlbumCount ==> PushTrack(albums, i)[m] == AlbumRecord(m + 1, Members(m + 1, i))
  {
    forall m | 0 <= m < AlbumCount
      ensures PushTrack(albums, i)[m] == AlbumRecord(m + 1, Members(m + 1, i))
    {
      MembersStep(m + 1, i);
    }
  }

  /**
   * The track loop: tracks `t1` to `t20`, each appended to album `i % 4`, whose
   * title and first cover it takes.
   */
  method SeedTracks(albums0: seq<Album>, sinScaled: int -> real) returns (tracks: seq<Track>, albums: seq<Album>)
    requires |albums0| == AlbumCount
    requires forall m :: 0 <= m < AlbumCount ==> albums0[m] == AlbumRecord(m + 1, [])
    ensures |tracks| == TrackCount
    ensures forall j :: 0 <= j < TrackCount ==> IsSeedTrack(tracks[j], j + 1, sinScaled)
    ensures |albums| == AlbumCount
    ensures forall m :: 0 <= m < AlbumCount ==> albums[m] == AlbumRecord(m + 1, Members(m + 1, TrackCount))
  {
    albums := albums0;
    tracks := [];
    var i := 1;
    while i <= TrackCount
      invariant 1 <= i <= TrackCount + 1
      invariant |tracks| == i - 1 && |albums| == AlbumCount
      invariant forall j :: 0 <= j < |tracks| ==> IsSeedTrack(tracks[j], j + 1, sinScaled)
      invariant forall m :: 0 <= m < AlbumCount ==> albums[m] == AlbumRecord(m + 1, Members(m + 1, i - 1))
    {
      var artist := Artists[i % |Artists|];
      var albumIndex := i % 4;
      var genre := Genres[i % |Genres|];
      var defaultCover := albums[albumIndex].covers[0];
      var trackId := TrackId(i);
      var track := Track(trackId, TrackTitle(i), artist, albums[albumIndex].title, defaultCover,
                         SeedDuration(sinScaled, i), SampleMp3, SeedPlays(sinScaled, i), genre,
                         false, None, None, []);
      assert albums[albumIndex] == AlbumRecord(AlbumOf(i), Members(AlbumOf(i), i - 1));
      assert IsSeedTrack(track, i, sinScaled);
      tracks := tracks + [track];
      PushTrackStep(albums, i);
      ghost var before := albums;
      albums := albums[albumIndex := albums[albumIndex].(trackIds := albums[albumIndex].trackIds + [trackId])];
      assert albums == PushTrack(before, i);
      i := i + 1;
    }
  }

  /**
   * `generateInitialData`: four albums of three covers that partition the
   * twenty tracks, every track carrying its album's title and first cover.
   */
  method GenerateInitialData(sinScaled: int -> real) returns (tracks: seq<Track>, albums: seq<Album>)
    ensures |tracks| == TrackCount
    ensures forall j :: 0 <= j < TrackCount ==> IsSeedTrack(tracks[j], j + 1, sinScaled)
    ensures forall j :: 0 <= j < TrackCount ==>
      180.0 <= tracks[j].duration <= 299.0 && tracks[j].plays <= 499999
    ensures |albums| == AlbumCount
    ensures forall m :: 0 <= m < AlbumCount ==> albums[m] == AlbumRecord(m + 1, Members(m + 1, TrackCount))
    ensures forall m :: 0 <= m < AlbumCount ==> |albums[m].covers| == 3
    ensures forall j :: 0 <= j < TrackCount ==>
      tracks[j].album == albums[(j + 1) % 4].title && tracks[j].cover == albums[(j + 1) % 4].covers[0]
    ensures forall i, m :: 1 <= i <= TrackCount && 0 <= m < AlbumCount ==>
      (TrackId(i) in albums[m].trackIds <==> m == i % 4)
    ensures forall m :: 0 <= m < AlbumCount ==> |albums[m].trackIds| == 5
  {
    var initial := SeedAlbums();
    tracks, albums := SeedTracks(initial, sinScaled);
    Partition();
  }

  /** `ApiService.getTracks`: the placeholder resolves to no tracks. */
  function ApiGetTracks(): (r: seq<Track>)
    ensures |r| == 0
  {
    []
  }

  /** `ApiService.getAlbums`: the placeholder resolves to no albums. */
  function ApiGetAlbums(): (r: seq<Album>)
    ensures |r| == 0
  {
    []
  }
}
