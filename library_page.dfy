/**
 * The derivations of the Library page: the chart view, an artist's page, the
 * header and items of a playlist or album page with the controls it offers,
 * and the playlist cover shown in the library grid.
 */
module LibraryPage {
  import opened Wrappers
  import opened Text
  import opened Seqs
  import opened Types
  import opened Charts
  import ArtistStats
  import Playlists

  const HistoryId: string := "history"

  // ---- the artist page ----

  /** `artistTracks`: the catalogue's tracks by `name`, in catalogue order. */
  function ArtistTracks(tracks: seq<Track>, name: string): (r: seq<Track>)
    ensures forall t :: t in r <==> t in tracks && t.artist == name
    ensures IsSubseq(r, tracks)
  {
    FilterIsSubseq(tracks, ArtistStats.ByArtist(name));
    Filter(tracks, ArtistStats.ByArtist(name))
  }

  const PopularSize: nat := 5

  /** `topTracks`: the artist's five most played tracks, most played first. */
  function TopTracks(tracks: seq<Track>, name: string): (r: seq<Track>)
    ensures |r| <= PopularSize
    ensures |r| == PopularSize || |r| == |ArtistTracks(tracks, name)|
    ensures multiset(r) <= multiset(ArtistTracks(tracks, name))
    ensures forall t :: t in r ==> t in tracks && t.artist == name
    ensures SortedDesc(r, Plays)
    ensures forall t, c :: t in multiset(ArtistTracks(tracks, name)) - multiset(r) && c in r ==> c.plays >= t.plays
  {
    Top(ArtistTracks(tracks, name), PopularSize, Plays)
  }

  /** `totalPlays`: the plays summed over the artist's tracks. */
  function TotalPlays(tracks: seq<Track>, name: string): int {
    Sum(ArtistTracks(tracks, name), Plays)
  }

  /**
   * The streams the artist page shows agree with the store's statistics: they
   * are the artist's total, and the monthly figure in the header is 45% of them.
   */
  lemma TotalPlaysAgree(tracks: seq<Track>, name: string)
    ensures TotalPlays(tracks, name) == ArtistStats.Total(tracks, name)
    ensures ArtistStats.GetArtistStats(tracks, name).monthlyPlays == TotalPlays(tracks, name) * 45 / 100
  {
    ArtistStats.TotalIsFilterSum(tracks, name);
  }

  // ---- playlist and album pages ----

  /** `id => tracks.find(t => t.id === id)` found something. */
  function KnownIn(tracks: seq<Track>): string -> bool {
    (id: string) => FindTrack(tracks, id).Some?
  }

  /**
   * `ids.map(tid => tracks.find(t => t.id === tid)).filter(Boolean)`: each id
   * replaced by the first track carrying it, ids without a track dropped.
   */
  function Resolve(ids: seq<string>, tracks: seq<Track>): (r: seq<Track>)
    ensures |r| <= |ids|
    ensures forall i :: 0 <= i < |r| ==> FindTrack(tracks, r[i].id) == Some(r[i])
  {
    if |ids| == 0 then []
    else
      match FindTrack(tracks, ids[0])
      case Some(t) => [t] + Resolve(ids[1..], tracks)
      case None => Resolve(ids[1..], tracks)
  }

  /** The resolved tracks carry exactly the known ids, in the order they are listed. */
  lemma {:induction false} ResolveIds(ids: seq<string>, tracks: seq<Track>)
    ensures Ids(Resolve(ids, tracks)) == Filter(ids, KnownIn(tracks))
    ensures forall t :: t in Resolve(ids, tracks) ==> t in tracks
  {
    if |ids| > 0 {
      ResolveIds(ids[1..], tracks);
      var rest := Resolve(ids[1..], tracks);
      match FindTrack(tracks, ids[0])
      case Some(t) =>
        IdsAppend([t], rest);
      case None =>
    }
  }

  /** When every id names a track, every id gets its track, in order. */
  lemma ResolveAllKnown(ids: seq<string>, tracks: seq<Track>)
    requires forall i :: 0 <= i < |ids| ==> FindTrack(tracks, ids[i]).Some?
    ensures |Resolve(ids, tracks)| == |ids|
    ensures forall i :: 0 <= i < |ids| ==> Some(Resolve(ids, tracks)[i]) == FindTrack(tracks, ids[i])
  {
    ResolveIds(ids, tracks);
    FilterAll(ids, KnownIn(tracks));
    assert Ids(Resolve(ids, tracks)) == ids;
  }

  /**
   * The first listed track's cover, `""` when the list is empty or its first id
   * names no track.
   */
  function FirstTrackCover(pl: Playlist, tracks: seq<Track>): string {
    if |pl.tracks| == 0 then ""
    else match FindTrack(tracks, pl.tracks[0])
      case Some(t) => t.cover
      case None => ""
  }

  /** The cover of a playlist page: none for liked songs, else the custom cover, else the first track's. */
  function HeaderCover(pl: Playlist, tracks: seq<Track>): string {
    if pl.id == Playlists.LikedId then ""
    else if Truthy(pl.customCover) then pl.customCover.value
    else FirstTrackCover(pl, tracks)
  }

  /** The cover computed for a playlist tile of the library grid. */
  function GridCover(pl: Playlist, tracks: seq<Track>): string {
    if !Truthy(pl.customCover) && |pl.tracks| > 0 then FirstTrackCover(pl, tracks)
    else pl.customCover.GetOr("")
  }

  /** A tile shows an image for any playlist but liked songs whose computed cover is non-empty. */
  predicate GridShowsImage(pl: Playlist, tracks: seq<Track>) {
    pl.id != Playlists.LikedId && GridCover(pl, tracks) != ""
  }

  /**
   * The grid and the playlist page agree: a tile shows an image exactly when the
   * page has a cover, and it is the same one.
   */
  lemma CoversAgree(pl: Playlist, tracks: seq<Track>)
    ensures GridShowsImage(pl, tracks) <==> HeaderCover(pl, tracks) != ""
    ensures GridShowsImage(pl, tracks) ==> GridCover(pl, tracks) == HeaderCover(pl, tracks)
    ensures Truthy(pl.customCover) && pl.id != Playlists.LikedId ==> HeaderCover(pl, tracks) == pl.customCover.value
  {
  }

  /** The header values, items and flags of a playlist or album page. */
  datatype Detail = Detail(
    title: string,
    subtitle: string,
    cover: string,
    description: string,
    items: seq<Track>,
    year: Option<int>,
    recordLabel: string,
    isPlaylist: bool,
    isSystem: bool,
    isLikedSongs: bool,
    isHistory: bool)

  datatype Page = Shown(detail: Detail) | PlaylistNotFound | AlbumNotFound

  /** The header subtitle of an album: artist, and the year when it is not 0. */
  function AlbumSubtitle(alb: Album): string {
    "Album • " + alb.artist + (if alb.year != 0 then " • " + IntToString(alb.year) else "")
  }

  /** The playlist or album page for the current view. */
  function CollectionPage(view: ViewState, playlists: seq<Playlist>, albums: seq<Album>,
                          tracks: seq<Track>, recentlyPlayed: seq<Track>): (p: Page)
    requires view.PlaylistView? || view.AlbumView?
  {
    var id := view.id;
    var isLikedSongs := id == Playlists.LikedId;
    var isHistory := id == HistoryId;
    if view.PlaylistView? then
      if isHistory then
        Shown(Detail("Recently Played", NatToString(|recentlyPlayed|) + " tracks",
                     if |recentlyPlayed| > 0 then recentlyPlayed[0].cover else "", "",
                     recentlyPlayed, None, "", true, true, isLikedSongs, isHistory))
      else
        match Playlists.FindPlaylist(playlists, id)
        case None => PlaylistNotFound
        case Some(pl) =>
          Shown(Detail(pl.name, "Playlist • " + NatToString(|pl.tracks|) + " songs",
                       HeaderCover(pl, tracks), pl.description.GetOr(""),
                       Resolve(pl.tracks, tracks), None, "Huevify User Playlist",
                       true, pl.isSystem, isLikedSongs, isHistory))
    else
      match FindAlbum(albums, id)
      case None => AlbumNotFound
      case Some(alb) =>
        Shown(Detail(alb.title, AlbumSubtitle(alb), alb.cover.GetOr(""), "",
                     Resolve(alb.trackIds, tracks), Some(alb.year),
                     if Truthy(alb.recordLabel) then alb.recordLabel.value else "Huevify Records",
                     false, false, isLikedSongs, isHistory))
  }

  /** `albums.find(a => a.id === id)`. */
  function FindAlbum(albums: seq<Album>, id: string): (r: Option<Album>)
    ensures r.Some? <==> exists i :: 0 <= i < |albums| && albums[i].id == id
    ensures r.Some? ==> r.value in albums && r.value.id == id
  {
    if |albums| == 0 then None
    else if albums[0].id == id then Some(albums[0])
    else
      var r := FindAlbum(albums[1..], id);
      assert forall i :: 1 <= i < |albums| ==> albums[i] == albums[1..][i - 1];
      r
  }

  /** Edit and delete buttons: on playlist pages that are not system playlists. */
  predicate ShowsEditDelete(d: Detail) {
    d.isPlaylist && !d.isSystem
  }

  /** The per-track remove button: on playlist pages other than liked songs and history. */
  predicate ShowsRemoveTrack(d: Detail) {
    d.isPlaylist && !d.isLikedSongs && !d.isHistory
  }

  /** The album like button: on album pages. */
  predicate ShowsAlbumLike(d: Detail) {
    !d.isPlaylist
  }

  /**
   * Which page appears and which controls it offers: the history page lists the
   * recently played tracks and can be neither edited nor pruned; a playlist page
   * lists the playlist's resolved tracks, can be edited exactly when the playlist
   * is not a system one, and pruned exactly when it is not liked songs; an album
   * page lists the album's resolved tracks and offers only the like button.
   */
  lemma PageControls(view: ViewState, playlists: seq<Playlist>, albums: seq<Album>,
                     tracks: seq<Track>, recentlyPlayed: seq<Track>)
    requires view.PlaylistView? || view.AlbumView?
    ensures var p := CollectionPage(view, playlists, albums, tracks, recentlyPlayed);
      && (view == PlaylistView(HistoryId) ==>
            p.Shown? && p.detail.items == recentlyPlayed
            && !ShowsEditDelete(p.detail) && !ShowsRemoveTrack(p.detail) && !ShowsAlbumLike(p.detail))
      && (view.PlaylistView? && view.id != HistoryId ==>
            match Playlists.FindPlaylist(playlists, view.id)
            case None => p == PlaylistNotFound
            case Some(pl) =>
              p.Shown? && p.detail.items == Resolve(pl.tracks, tracks)
              && (ShowsEditDelete(p.detail) <==> !pl.isSystem)
              && (ShowsRemoveTrack(p.detail) <==> view.id != Playlists.LikedId)
              && !ShowsAlbumLike(p.detail))
      && (view.AlbumView? ==>
            match FindAlbum(albums, view.id)
            case None => p == AlbumNotFound
            case Some(alb) =>
              p.Shown? && p.detail.items == Resolve(alb.trackIds, tracks)
              && !ShowsEditDelete(p.detail) && !ShowsRemoveTrack(p.detail) && ShowsAlbumLike(p.detail))
  {
  }

  /** The initial liked-songs playlist is a system playlist, so its page offers neither edit nor removal. */
  lemma LikedPageLocked(playlists: seq<Playlist>, albums: seq<Album>, tracks: seq<Track>, recentlyPlayed: seq<Track>)
    requires Playlists.FindPlaylist(playlists, Playlists.LikedId) == Some(Playlists.DefaultLiked)
    ensures var p := CollectionPage(PlaylistView(Playlists.LikedId), playlists, albums, tracks, recentlyPlayed);
      p.Shown? && !ShowsEditDelete(p.detail) && !ShowsRemoveTrack(p.detail) && p.detail.cover == ""
  {
  }

  function Duration(t: Track): real {
    t.duration
  }

  /** `totalMinutes`: the whole minutes in the items' summed durations. */
  function TotalMinutes(items: seq<Track>): (m: int)
    ensures m as real * 60.0 <= SumReal(items, Duration) < (m as real + 1.0) * 60.0
  {
    (SumReal(items, Duration) / 60.0).Floor
  }

  /** `totalReleasePlays`: the items' plays summed; never negative. */
  function TotalReleasePlays(items: seq<Track>): (n: int)
    ensures n >= 0
    ensures forall i :: 0 <= i < |items| ==> items[i].plays <= n
  {
    PlaysBound(items);
    Sum(items, Plays)
  }

  lemma {:induction false} PlaysBound(items: seq<Track>)
    ensures Sum(items, Plays) >= 0
    ensures forall i :: 0 <= i < |items| ==> items[i].plays <= Sum(items, Plays)
  {
    if |items| > 0 {
      PlaysBound(items[1..]);
      assert forall i :: 1 <= i < |items| ==> items[i] == items[1..][i - 1];
    }
  }
}
