/**
 * The records of the catalogue, the library and the artist hub. Optional
 * fields that the code reads with `?? d` or tests for truthiness are
 * `Option`s; optional lists that every reader defaults with `|| []` are plain
 * sequences (absent reads as `[]`), and `explicit?`/`isSystem?`, read with
 * `|| false` and `!!`, are booleans.
 */
module Types {
  import opened Wrappers

  /** A catalogue track. `duration` is in seconds, `plays` a play counter. */
  datatype Track = Track(
    id: string,
    title: string,
    artist: string,
    album: string,
    cover: string,
    duration: real,
    url: string,
    plays: nat,
    genre: string,
    explicit: bool,
    feat: Option<string>,
    hueq: Option<string>,
    mainArtists: seq<string>)

  /** The play counter as a sort and sum key. */
  function Plays(t: Track): int {
    t.plays
  }

  /** `.map(t => t.id)`: the ids of a track list, in order. */
  function Ids(ts: seq<Track>): (r: seq<string>)
    ensures |r| == |ts|
    ensures forall i :: 0 <= i < |ts| ==> r[i] == ts[i].id
  {
    seq(|ts|, i requires 0 <= i < |ts| => ts[i].id)
  }

  lemma IdsAppend(a: seq<Track>, b: seq<Track>)
    ensures Ids(a + b) == Ids(a) + Ids(b)
  {
  }

  /** A string that JavaScript reads as true: present and non-empty. */
  predicate Truthy(o: Option<string>) {
    o.Some? && o.value != ""
  }

  /** An entry of the (remotely computed) daily chart. */
  datatype DailyChartTrack = DailyChartTrack(track: Track, dailyPlays: nat)

  /** A playlist; `tracks` holds track ids. */
  datatype Playlist = Playlist(
    id: string,
    name: string,
    description: Option<string>,
    customCover: Option<string>,
    tracks: seq<string>,
    isSystem: bool)

  datatype ReleaseType = Single | AlbumType | EP | Mixtape

  /**
   * An album. The newer data layer fills `covers`; the older one writes a single
   * `cover` property (which the older pages read as `album.cover`), so that is
   * kept as its own optional field.
   */
  datatype Album = Album(
    id: string,
    title: string,
    artist: string,
    covers: seq<string>,
    cover: Option<string>,
    trackIds: seq<string>,
    year: int,
    releaseDate: Option<string>,
    recordLabel: Option<string>,
    releaseType: Option<ReleaseType>,
    mainArtists: seq<string>)

  /** The page the main area shows. */
  datatype ViewState =
    | Home
    | Search
    | Library
    | PlaylistView(id: string)
    | AlbumView(id: string)
    | ArtistView(id: string)
    | Charts
    | GenreView(id: string)

  /** Repeat mode of the player. */
  datatype PlayMode = Off | Context | One

  /** One track of a release draft or of a release request. */
  datatype DistributionTrack = DistributionTrack(
    title: string,
    explicit: bool,
    feat: Option<string>,
    mainArtists: seq<string>,
    genre: Option<string>,
    fileUrl: string,
    duration: real,
    existingHueq: Option<string>,
    generatedHueq: Option<string>,
    artist: Option<string>)

  datatype ReleaseStatus = Pending | Approved | Rejected | Live

  /** A release as submitted to moderation (or a legacy album shown as one). */
  datatype ReleaseRequest = ReleaseRequest(
    id: string,
    artistId: string,
    artistName: string,
    status: ReleaseStatus,
    deletionRequested: bool,
    title: string,
    releaseType: ReleaseType,
    genre: string,
    recordLabel: string,
    covers: seq<string>,
    additionalMainArtists: seq<string>,
    tracks: seq<DistributionTrack>,
    releaseDate: string,
    releaseMessage: Option<string>)

  datatype PickType = PickTrack | PickAlbum | PickPlaylist

  datatype ArtistPick = ArtistPick(pickType: PickType, id: string, image: Option<string>, subtitle: Option<string>)

  datatype EditStatus = EditPending | EditApproved | EditRejected

  /** A profile change awaiting moderation. */
  datatype ProfileEditRequest = ProfileEditRequest(
    id: string,
    artistId: string,
    artistName: string,
    newAvatar: Option<string>,
    newBio: Option<string>,
    newArtistPick: Option<ArtistPick>,
    status: EditStatus)

  /** The first track with the given id (`tracks.find(t => t.id === id)`). */
  function FindTrack(tracks: seq<Track>, id: string): (r: Option<Track>)
    ensures r.Some? <==> exists i :: 0 <= i < |tracks| && tracks[i].id == id
    ensures r.Some? ==> r.value in tracks && r.value.id == id
  {
    if |tracks| == 0 then None
    else if tracks[0].id == id then Some(tracks[0])
    else
      var r := FindTrack(tracks[1..], id);
      assert forall i :: 1 <= i < |tracks| ==> tracks[i] == tracks[1..][i - 1];
      r
  }

  /** FindTrack returns the earliest match. */
  lemma {:induction false} FindTrackFirst(tracks: seq<Track>, id: string, k: int)
    requires 0 <= k < |tracks| && tracks[k].id == id
    requires forall j :: 0 <= j < k ==> tracks[j].id != id
    ensures FindTrack(tracks, id) == Some(tracks[k])
  {
    if k > 0 {
      FindTrackFirst(tracks[1..], id, k - 1);
    }
  }
}
