/**
 * The library and player store (`StoreProvider`): the catalogue, playlists,
 * preferences, the player, navigation, the delete-confirmation modal and the
 * listen-credit refs, as one object whose actions update its fields.
 *
 * Every action states its whole new state as an update of the old snapshot;
 * the meaning of each update is proved about the pure functions it uses
 * (modules Navigation, Preferences, Playlists, Playback, ArtistStats and
 * ListenCredit).
 */
module Store {
  import opened Wrappers
  import opened Seqs
  import opened Types
  import Navigation
  import Preferences
  import Playlists
  import Playback
  import ArtistStats
  import ListenCredit

  /** `initialTracks.map(t => ({...t, plays: storedPlays[t.id] ?? t.plays}))`. */
  function MergePlays(ts: seq<Track>, stored: map<string, nat>): (r: seq<Track>)
    ensures |r| == |ts|
    ensures forall i :: 0 <= i < |ts| ==> r[i].(plays := ts[i].plays) == ts[i]
    ensures forall i :: 0 <= i < |ts| && ts[i].id !in stored ==> r[i] == ts[i]
    ensures forall i :: 0 <= i < |ts| && ts[i].id in stored ==> r[i].plays == stored[ts[i].id]
  {
    seq(|ts|, i requires 0 <= i < |ts| =>
      if ts[i].id in stored then ts[i].(plays := stored[ts[i].id]) else ts[i])
  }

  /** `tracks.reduce((acc, t) => ({...acc, [t.id]: t.plays}), {})`: a later id overwrites an earlier one. */
  function SavedPlays(ts: seq<Track>): (m: map<string, nat>)
    ensures forall id :: id in m <==> exists i :: 0 <= i < |ts| && ts[i].id == id
  {
    if |ts| == 0 then map[]
    else
      var init := ts[..|ts| - 1];
      assert forall i :: 0 <= i < |init| ==> init[i] == ts[i];
      SavedPlays(init)[ts[|ts| - 1].id := ts[|ts| - 1].plays]
  }

  lemma {:induction false} SavedPlaysLookup(ts: seq<Track>, i: int)
    requires Playback.DistinctIds(ts) && 0 <= i < |ts|
    ensures ts[i].id in SavedPlays(ts) && SavedPlays(ts)[ts[i].id] == ts[i].plays
  {
    if i < |ts| - 1 {
      var init := ts[..|ts| - 1];
      assert init[i] == ts[i];
      assert Playback.DistinctIds(init);
      SavedPlaysLookup(init, i);
    }
  }

  /**
   * The saved play counters written back over the same catalogue restore
   * every counter, when track ids are distinct.
   */
  lemma RestorePlays(generated: seq<Track>, played: seq<Track>)
    requires |generated| == |played| && Playback.DistinctIds(played)
    requires forall i :: 0 <= i < |played| ==> played[i].(plays := generated[i].plays) == generated[i]
    ensures MergePlays(generated, SavedPlays(played)) == played
  {
    forall i | 0 <= i < |played|
      ensures MergePlays(generated, SavedPlays(played))[i] == played[i]
    {
      SavedPlaysLookup(played, i);
      assert generated[i].id == played[i].id;
    }
  }

  /** The fields `playTrack` and the skip actions act on. */
  datatype PlayerState = PlayerState(
    recentlyPlayed: seq<Track>,
    currentTrack: Option<Track>,
    isPlaying: bool,
    cumulative: real,
    lastTime: real,
    hasCountedListen: bool)

  /**
   * `playTrack`: the recently-played list is updated; the current track
   * toggles between play and pause (`audioPaused` is the audio element's
   * state); another track becomes current, its listening session starts
   * afresh, and it is marked playing when the audio starts.
   */
  function Played(p: PlayerState, track: Track, audioPaused: bool, playSucceeds: bool): PlayerState {
    var recent := Playback.Recent(p.recentlyPlayed, track);
    if p.currentTrack.Some? && p.currentTrack.value.id == track.id then
      p.(recentlyPlayed := recent, isPlaying := audioPaused)
    else
      PlayerState(recent, Some(track), playSucceeds || p.isPlaying, 0.0, 0.0, false)
  }

  /** The listening session held in the player fields. */
  function SessionOf(p: PlayerState): ListenCredit.Session {
    ListenCredit.Session(p.cumulative, p.lastTime, p.hasCountedListen)
  }

  /**
   * After playTrack the track is current and heads the recently-played list.
   * A track change starts a fresh session; replaying the current track keeps
   * the session, so a listen already credited is not credited again.
   */
  lemma PlayedSession(p: PlayerState, track: Track, audioPaused: bool, playSucceeds: bool)
    ensures var r := Played(p, track, audioPaused, playSucceeds);
      && r.recentlyPlayed == Playback.Recent(p.recentlyPlayed, track)
      && r.currentTrack.Some? && r.currentTrack.value.id == track.id
      && (r.hasCountedListen ==> p.hasCountedListen && p.currentTrack.Some? && p.currentTrack.value.id == track.id)
      && if p.currentTrack.Some? && p.currentTrack.value.id == track.id
         then SessionOf(r) == SessionOf(p) && r.isPlaying == audioPaused && r.currentTrack == p.currentTrack
         else SessionOf(r) == ListenCredit.Fresh && r.currentTrack == Some(track)
  {
  }

  class Store {
    var tracks: seq<Track>
    var albums: seq<Album>
    var playlists: seq<Playlist>
    var recentlyPlayed: seq<Track>
    var likedAlbumIds: seq<string>
    var followedArtists: seq<string>
    var currentTrack: Option<Track>
    var isPlaying: bool
    var playMode: PlayMode
    var isShuffle: bool
    /** The last audio position reported, in seconds. */
    var progress: real
    var view: ViewState
    var history: seq<ViewState>
    var isMobilePlayerOpen: bool
    var isDeleteModalOpen: bool
    var playlistToDelete: Option<string>
    /** `cumulativeTimeRef`: seconds heard of the current track. */
    var cumulative: real
    /** `lastTimeRef`: the audio position at the previous update. */
    var lastTime: real
    var hasCountedListen: bool
    /** The stored `last_listen_<id>` entries: the clock (ms) of each track's last credit. */
    var lastListenAt: map<string, int>

    function Nav(): Navigation.Nav
      reads this
    {
      Navigation.Nav(view, history)
    }

    function Player(): PlayerState
      reads this
    {
      PlayerState(recentlyPlayed, currentTrack, isPlaying, cumulative, lastTime, hasCountedListen)
    }

    function Session(): ListenCredit.Session
      reads this
    {
      ListenCredit.Session(cumulative, lastTime, hasCountedListen)
    }

    function Ledger(): ListenCredit.Ledger
      reads this
    {
      ListenCredit.Ledger(tracks, lastListenAt)
    }

    /** `getQueue`. */
    function Queue(): seq<Track>
      reads this
    {
      Playback.GetQueue(view, recentlyPlayed, tracks)
    }

    /** Heard time is never negative, and nothing is counted before a track is current. */
    predicate Valid()
      reads this
    {
      cumulative >= 0.0 && (currentTrack.None? ==> !hasCountedListen)
    }

    /**
     * The provider after its initialisation effect: generated catalogue with
     * stored play counters, stored playlists (or just the 'liked' playlist),
     * stored album likes, followed artists and recently played tracks.
     */
    constructor (initialTracks: seq<Track>, initialAlbums: seq<Album>, storedPlays: map<string, nat>,
                 storedPlaylists: Option<seq<Playlist>>, storedLikedAlbums: seq<string>,
                 storedFollowed: seq<string>, storedRecent: seq<Track>, storedLastListen: map<string, int>)
      ensures tracks == MergePlays(initialTracks, storedPlays) && albums == initialAlbums
      ensures playlists == storedPlaylists.GetOr([Playlists.DefaultLiked])
      ensures likedAlbumIds == storedLikedAlbums && followedArtists == storedFollowed
      ensures Player() == PlayerState(storedRecent, None, false, 0.0, 0.0, false)
      ensures playMode == Off && !isShuffle && progress == 0.0
      ensures view == Home && history == [] && !isMobilePlayerOpen
      ensures !isDeleteModalOpen && playlistToDelete == None
      ensures lastListenAt == storedLastListen
      ensures Valid()
    {
      tracks := MergePlays(initialTracks, storedPlays);
      albums := initialAlbums;
      playlists := storedPlaylists.GetOr([Playlists.DefaultLiked]);
      recentlyPlayed := storedRecent;
      likedAlbumIds := storedLikedAlbums;
      followedArtists := storedFollowed;
      currentTrack := None;
      isPlaying := false;
      playMode := Off;
      isShuffle := false;
      progress := 0.0;
      view := Home;
      history := [];
      isMobilePlayerOpen := false;
      isDeleteModalOpen := false;
      playlistToDelete := None;
      cumulative := 0.0;
      lastTime := 0.0;
      hasCountedListen := false;
      lastListenAt := storedLastListen;
    }

    /** `setView`: navigate (see Navigation.SetView) and close the mobile player. */
    method SetView(newView: ViewState)
      modifies this`view, this`history, this`isMobilePlayerOpen
      ensures Nav() == Navigation.SetView(old(Nav()), newView)
      ensures !isMobilePlayerOpen
    {
      if view != newView {
        history := history + [view];
        view := newView;
      }
      isMobilePlayerOpen := false;
    }

    /** `goToArtist`. */
    method GoToArtist(artistName: string)
      modifies this`view, this`history, this`isMobilePlayerOpen
      ensures Nav() == Navigation.SetView(old(Nav()), ArtistView(artistName))
      ensures !isMobilePlayerOpen
    {
      SetView(ArtistView(artistName));
      isMobilePlayerOpen := false;
    }

    /** `goBack`: pop the history (see Navigation.GoBack); the mobile player is left as it is. */
    method GoBack()
      modifies this`view, this`history
      ensures Nav() == Navigation.GoBack(old(Nav()))
    {
      if |history| > 0 {
        var prev := history[|history| - 1];
        history := history[..|history| - 1];
        view := prev;
      } else {
        view := Home;
      }
    }

    /**
     * The forEach of `getArtistStats`: `artistPlayMap` and the order in which
     * its keys were first set.
     */
    method ArtistPlayMap() returns (playMap: map<string, nat>, keys: seq<string>)
      ensures keys == ArtistStats.Order(tracks)
      ensures forall a :: a in playMap <==> a in keys
      ensures forall a :: a in playMap ==> playMap[a] == ArtistStats.Total(tracks, a)
    {
      playMap := map[];
      keys := [];
      var i := 0;
      while i < |tracks|
        invariant 0 <= i <= |tracks|
        invariant keys == ArtistStats.Order(tracks[..i])
        invariant forall a :: a in playMap <==> a in keys
        invariant forall a :: a in playMap ==> playMap[a] == ArtistStats.Total(tracks[..i], a)
      {
        var t := tracks[i];
        ArtistStats.PrefixStep(tracks, i);
        var before := if t.artist in playMap then playMap[t.artist] else 0;
        assert before == ArtistStats.Total(tracks[..i], t.artist);
        playMap := playMap[t.artist := before + t.plays];
        if t.artist !in keys {
          keys := keys + [t.artist];
        }
        assert forall a :: a in playMap ==> playMap[a] == ArtistStats.Total(tracks[..i + 1], a);
        i := i + 1;
      }
      assert tracks[..i] == tracks;
    }

    /** `getArtistStats`: rank the play map's entries and look the artist up. */
    method GetArtistStats(artistName: string) returns (stats: ArtistStats.Stats)
      ensures stats == ArtistStats.GetArtistStats(tracks, artistName)
    {
      var playMap, keys := ArtistPlayMap();
      var entries := seq(|keys|, k requires 0 <= k < |keys| => ArtistStats.Entry(keys[k], playMap[keys[k]]));
      assert entries == ArtistStats.Entries(tracks);
      var sorted := SortDesc(entries, ArtistStats.EntryTotal);
      var rankIndex := ArtistStats.FindName(sorted, artistName);
      if artistName !in playMap {
        ArtistStats.TotalAbsent(tracks, artistName);
      }
      var totalPlays := if artistName in playMap then playMap[artistName] else 0;
      stats := ArtistStats.Stats(totalPlays * 45 / 100,
                                 if rankIndex == -1 then ArtistStats.UnrankedRank else rankIndex + 1);
    }

    /** `isArtistFollowed`. */
    function IsArtistFollowed(artistName: string): bool
      reads this
    {
      artistName in followedArtists
    }

    /** `toggleFollowArtist`: the artist's followed state flips. */
    method ToggleFollowArtist(artistName: string)
      modifies this`followedArtists
      ensures followedArtists == Preferences.ToggleMember(old(followedArtists), artistName)
      ensures IsArtistFollowed(artistName) == !old(IsArtistFollowed(artistName))
    {
      if artistName in followedArtists {
        followedArtists := RemoveAll(followedArtists, artistName);
      } else {
        followedArtists := followedArtists + [artistName];
      }
    }

    /** `isAlbumLiked`. */
    function IsAlbumLiked(albumId: string): bool
      reads this
    {
      albumId in likedAlbumIds
    }

    /** `toggleAlbumLike`: the album's liked state flips. */
    method ToggleAlbumLike(albumId: string)
      modifies this`likedAlbumIds
      ensures likedAlbumIds == Preferences.ToggleMember(old(likedAlbumIds), albumId)
      ensures IsAlbumLiked(albumId) == !old(IsAlbumLiked(albumId))
    {
      if albumId in likedAlbumIds {
        likedAlbumIds := RemoveAll(likedAlbumIds, albumId);
      } else {
        likedAlbumIds := likedAlbumIds + [albumId];
      }
    }

    /** `toggleRepeat`: OFF -> CONTEXT -> ONE -> OFF. */
    method ToggleRepeat()
      modifies this`playMode
      ensures playMode == Preferences.NextMode(old(playMode))
    {
      if playMode == Off {
        playMode := Context;
      } else if playMode == Context {
        playMode := One;
      } else {
        playMode := Off;
      }
    }

    /** `toggleShuffle`. */
    method ToggleShuffle()
      modifies this`isShuffle
      ensures isShuffle == !old(isShuffle)
    {
      isShuffle := !isShuffle;
    }

    /** `togglePlay`: play when the audio is paused, pause otherwise. */
    method TogglePlay(audioPaused: bool)
      modifies this`isPlaying
      ensures isPlaying == audioPaused
    {
      isPlaying := audioPaused;
    }

    /**
     * `playTrack` (see Played). `audioPaused` is the audio element's state and
     * `playSucceeds` whether the browser starts the new source.
     */
    method PlayTrack(track: Track, audioPaused: bool, playSucceeds: bool)
      requires Valid()
      modifies this`recentlyPlayed, this`currentTrack, this`isPlaying,
               this`cumulative, this`lastTime, this`hasCountedListen
      ensures Player() == Played(old(Player()), track, audioPaused, playSucceeds)
      ensures Valid()
    {
      recentlyPlayed := Playback.Recent(recentlyPlayed, track);
      if currentTrack.Some? && currentTrack.value.id == track.id {
        TogglePlay(audioPaused);
        return;
      }
      currentTrack := Some(track);
      cumulative := 0.0;
      lastTime := 0.0;
      hasCountedListen := false;
      if playSucceeds {
        isPlaying := true;
      }
    }

    /** `seek`: the position jumps, so the next update adds nothing to the heard time. */
    method Seek(time: real)
      modifies this`lastTime, this`progress
      ensures lastTime == time && progress == time
    {
      lastTime := time;
      progress := time;
    }

    /**
     * `nextTrack` (see Playback.NextChoice); `rand` is `Math.random()`. On an
     * empty queue, where the source reads a missing element, nothing changes.
     */
    method NextTrack(rand: real, audioPaused: bool, playSucceeds: bool)
      requires 0.0 <= rand < 1.0 && Valid()
      modifies this`recentlyPlayed, this`currentTrack, this`isPlaying,
               this`cumulative, this`lastTime, this`hasCountedListen
      ensures var c := Playback.NextChoice(old(Queue()), old(currentTrack), old(playMode), old(isShuffle), rand);
        && (c.PlayAt? ==> Player() == Played(old(Player()), old(Queue())[c.index], audioPaused, playSucceeds))
        && (c == Playback.Stop ==> Player() == old(Player()).(isPlaying := false))
        && (c == Playback.Fault ==> Player() == old(Player()))
      ensures Valid()
    {
      var queue := Queue();
      var c := Playback.NextChoice(queue, currentTrack, playMode, isShuffle, rand);
      match c {
        case PlayAt(k) => PlayTrack(queue[k], audioPaused, playSucceeds);
        case Stop => isPlaying := false;
        case Restart =>
        case Fault =>
      }
    }

    /**
     * `prevTrack` (see Playback.PrevChoice), given the audio position in
     * seconds: a rewind resets `lastTimeRef`; on an empty queue nothing changes.
     */
    method PrevTrack(position: real, audioPaused: bool, playSucceeds: bool)
      requires Valid()
      modifies this`recentlyPlayed, this`currentTrack, this`isPlaying,
               this`cumulative, this`lastTime, this`hasCountedListen
      ensures var c := Playback.PrevChoice(old(Queue()), old(currentTrack), position);
        && (c.PlayAt? ==> Player() == Played(old(Player()), old(Queue())[c.index], audioPaused, playSucceeds))
        && (c == Playback.Restart ==> Player() == old(Player()).(lastTime := 0.0))
        && (c == Playback.Fault ==> Player() == old(Player()))
      ensures Valid()
    {
      var queue := Queue();
      var c := Playback.PrevChoice(queue, currentTrack, position);
      match c {
        case PlayAt(k) => PlayTrack(queue[k], audioPaused, playSucceeds);
        case Restart => lastTime := 0.0;
        case Stop =>
        case Fault =>
      }
    }

    /**
     * `handleEnded`: with repeat ONE the audio is rewound and no store field
     * changes (so a credited session stays counted); otherwise `nextTrack`.
     */
    method Ended(rand: real, audioPaused: bool, playSucceeds: bool)
      requires 0.0 <= rand < 1.0 && Valid()
      modifies this`recentlyPlayed, this`currentTrack, this`isPlaying,
               this`cumulative, this`lastTime, this`hasCountedListen
      ensures old(playMode) == One ==> Player() == old(Player())
      ensures old(playMode) != One ==>
        var c := Playback.NextChoice(old(Queue()), old(currentTrack), old(playMode), old(isShuffle), rand);
        && (c.PlayAt? ==> Player() == Played(old(Player()), old(Queue())[c.index], audioPaused, playSucceeds))
        && (c == Playback.Stop ==> Player() == old(Player()).(isPlaying := false))
        && (c == Playback.Fault ==> Player() == old(Player()))
      ensures Valid()
    {
      if playMode != One {
        NextTrack(rand, audioPaused, playSucceeds);
      }
    }

    /**
     * `handleListenCount` for the current track: credit plays unless the
     * track's cooldown is running, and mark the session counted.
     */
    method HandleListenCount(track: Track, clockMs: int, rand: real)
      requires 0.0 <= rand < 1.0 && Valid() && currentTrack == Some(track)
      modifies this`tracks, this`lastListenAt, this`hasCountedListen
      ensures Ledger() == ListenCredit.ListenCount(old(Ledger()), track, clockMs, rand)
      ensures hasCountedListen
      ensures Valid()
    {
      var lastListenTime := ListenCredit.LastCredit(lastListenAt, track.id);
      if ListenCredit.CooldownElapsed(clockMs, lastListenTime, track.duration) {
        var addedPlays := ListenCredit.AddedPlays(rand);
        tracks := ListenCredit.CreditPlays(tracks, track.id, addedPlays);
        lastListenAt := lastListenAt[track.id := clockMs];
      }
      hasCountedListen := true;
    }

    /**
     * `handleTimeUpdate` for the audio position `now` (seconds), the wall clock
     * `clockMs` and a random fraction: the session takes one step
     * (ListenCredit.Step), and the credit runs when the step calls for it.
     */
    method TimeUpdate(now: real, clockMs: int, rand: real)
      requires 0.0 <= rand < 1.0 && Valid()
      modifies this`progress, this`cumulative, this`lastTime, this`hasCountedListen,
               this`tracks, this`lastListenAt
      ensures progress == now
      ensures var step := ListenCredit.Step(old(Session()), now, old(currentTrack).Some?);
        && Session() == step.0
        && (step.1 ==> Ledger() == ListenCredit.ListenCount(old(Ledger()), old(currentTrack).value, clockMs, rand))
        && (!step.1 ==> Ledger() == old(Ledger()))
      ensures old(hasCountedListen) ==> tracks == old(tracks) && hasCountedListen
      ensures Valid()
    {
      progress := now;
      var diff := now - lastTime;
      if 0.0 < diff < ListenCredit.MaxStep {
        cumulative := cumulative + diff;
      }
      lastTime := now;
      if cumulative > ListenCredit.CreditAfter && !hasCountedListen && currentTrack.Some? {
        HandleListenCount(currentTrack.value, clockMs, rand);
      }
    }

    /** `isLiked`. */
    function IsLiked(trackId: string): bool
      reads this
    {
      Playlists.IsLiked(playlists, trackId)
    }

    /** `createPlaylist` at wall-clock time `now` (ms). */
    method CreatePlaylist(name: string, description: Option<string>, cover: Option<string>, now: int)
      modifies this`playlists
      ensures playlists == Playlists.CreatePlaylist(old(playlists), name, description, cover, now)
    {
      playlists := Playlists.CreatePlaylist(playlists, name, description, cover, now);
    }

    /** `editPlaylist`. */
    method EditPlaylist(id: string, name: string, description: Option<string>, cover: Option<string>)
      modifies this`playlists
      ensures playlists == Playlists.EditPlaylist(old(playlists), id, name, description, cover)
    {
      playlists := Playlists.EditPlaylist(playlists, id, name, description, cover);
    }

    /** `addToPlaylist`. */
    method AddToPlaylist(playlistId: string, trackId: string)
      modifies this`playlists
      ensures playlists == Playlists.AddToPlaylist(old(playlists), playlistId, trackId)
    {
      playlists := Playlists.AddToPlaylist(playlists, playlistId, trackId);
    }

    /** `removeFromPlaylist`. */
    method RemoveFromPlaylist(playlistId: string, trackId: string)
      modifies this`playlists
      ensures playlists == Playlists.RemoveFromPlaylist(old(playlists), playlistId, trackId)
    {
      playlists := Playlists.RemoveFromPlaylist(playlists, playlistId, trackId);
    }

    /** `toggleLike`: the track's liked state flips when a 'liked' playlist exists. */
    method ToggleLike(trackId: string)
      modifies this`playlists
      ensures playlists == Playlists.ToggleLike(old(playlists), trackId)
      ensures Playlists.FindPlaylist(old(playlists), Playlists.LikedId).Some? ==>
        IsLiked(trackId) == !old(IsLiked(trackId))
    {
      Playlists.ToggleLikeFlips(playlists, trackId);
      var likedPl := Playlists.FindPlaylist(playlists, Playlists.LikedId);
      if likedPl.None? {
        return;
      }
      if trackId in likedPl.value.tracks {
        RemoveFromPlaylist(Playlists.LikedId, trackId);
      } else {
        AddToPlaylist(Playlists.LikedId, trackId);
      }
    }

    /** `openDeleteModal`, which `deletePlaylist` calls. */
    method OpenDeleteModal(id: string)
      modifies this`playlistToDelete, this`isDeleteModalOpen
      ensures playlistToDelete == Some(id) && isDeleteModalOpen
    {
      playlistToDelete := Some(id);
      isDeleteModalOpen := true;
    }

    /** `closeDeleteModal`. */
    method CloseDeleteModal()
      modifies this`playlistToDelete, this`isDeleteModalOpen
      ensures playlistToDelete == None && !isDeleteModalOpen
    {
      isDeleteModalOpen := false;
      playlistToDelete := None;
    }

    /**
     * `confirmDeletePlaylist`: without a (non-empty) pending id nothing happens;
     * otherwise a view of that playlist gives way to the library (without a
     * history entry), the playlist is filtered out and the modal closes.
     */
    method ConfirmDeletePlaylist()
      modifies this`view, this`playlists, this`playlistToDelete, this`isDeleteModalOpen
      ensures (old(playlistToDelete).None? || old(playlistToDelete) == Some("")) ==>
        view == old(view) && playlists == old(playlists)
        && playlistToDelete == old(playlistToDelete) && isDeleteModalOpen == old(isDeleteModalOpen)
      ensures old(playlistToDelete).Some? && old(playlistToDelete) != Some("") ==>
        var id := old(playlistToDelete).value;
        && playlists == Playlists.DeletePlaylist(old(playlists), id)
        && view == (if old(view) == PlaylistView(id) then Library else old(view))
        && playlistToDelete == None && !isDeleteModalOpen
    {
      if playlistToDelete.None? || playlistToDelete.value == "" {
        return;
      }
      var id := playlistToDelete.value;
      if view == PlaylistView(id) {
        view := Library;
      }
      playlists := Playlists.DeletePlaylist(playlists, id);
      CloseDeleteModal();
    }
  }
}
