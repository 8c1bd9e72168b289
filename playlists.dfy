/**
 * The store's playlist actions: add and remove a track, the like toggle on the
 * 'liked' playlist, create, edit and the delete confirmation's filter. Each
 * action maps over the whole playlist list, so every playlist carrying the
 * target id is updated.
 */
module Playlists {
  import opened Wrappers
  import opened Seqs
  import opened Text
  import opened Types

  const LikedId: string := "liked"

  /** The playlist the store creates when nothing is stored. */
  const DefaultLiked: Playlist :=
    Playlist(LikedId, "Liked Songs", Some("Your favorite tracks"), None, [], true)

  /** `playlists.find(p => p.id === id)`. */
  function FindPlaylist(pls: seq<Playlist>, id: string): (r: Option<Playlist>)
    ensures r.Some? <==> exists i :: 0 <= i < |pls| && pls[i].id == id
    ensures r.Some? ==> r.value in pls && r.value.id == id
  {
    if |pls| == 0 then None
    else if pls[0].id == id then Some(pls[0])
    else
      assert forall i :: 1 <= i < |pls| ==> pls[i] == pls[1..][i - 1];
      FindPlaylist(pls[1..], id)
  }

  /** The playlists after `f` is applied to every one whose id is `id`. */
  function Apply(pls: seq<Playlist>, id: string, f: Playlist -> Playlist): (r: seq<Playlist>)
    ensures |r| == |pls|
    ensures forall i :: 0 <= i < |pls| ==> r[i] == if pls[i].id == id then f(pls[i]) else pls[i]
  {
    seq(|pls|, i requires 0 <= i < |pls| => if pls[i].id == id then f(pls[i]) else pls[i])
  }

  function WithTrack(p: Playlist, trackId: string): Playlist {
    if trackId in p.tracks then p else p.(tracks := p.tracks + [trackId])
  }

  function WithoutTrack(p: Playlist, trackId: string): Playlist {
    p.(tracks := RemoveAll(p.tracks, trackId))
  }

  /** `addToPlaylist`: append the id to each matching playlist that lacks it. */
  function AddToPlaylist(pls: seq<Playlist>, playlistId: string, trackId: string): (r: seq<Playlist>)
    ensures |r| == |pls|
    ensures forall i :: 0 <= i < |r| ==> r[i].id == pls[i].id && r[i].name == pls[i].name
    ensures forall i :: 0 <= i < |r| && pls[i].id != playlistId ==> r[i] == pls[i]
    ensures forall i :: 0 <= i < |r| && pls[i].id == playlistId ==>
      trackId in r[i].tracks && pls[i].tracks <= r[i].tracks
      && |r[i].tracks| <= |pls[i].tracks| + 1
    ensures forall i :: 0 <= i < |r| && pls[i].id == playlistId ==>
      r[i] == if trackId in pls[i].tracks then pls[i] else pls[i].(tracks := pls[i].tracks + [trackId])
  {
    Apply(pls, playlistId, p => WithTrack(p, trackId))
  }

  /** `removeFromPlaylist`: drop every occurrence of the id from each matching playlist. */
  function RemoveFromPlaylist(pls: seq<Playlist>, playlistId: string, trackId: string): (r: seq<Playlist>)
    ensures |r| == |pls|
    ensures forall i :: 0 <= i < |r| ==> r[i].id == pls[i].id && r[i].name == pls[i].name
    ensures forall i :: 0 <= i < |r| && pls[i].id != playlistId ==> r[i] == pls[i]
    ensures forall i :: 0 <= i < |r| && pls[i].id == playlistId ==>
      trackId !in r[i].tracks && IsSubseq(r[i].tracks, pls[i].tracks)
      && (forall t :: t != trackId ==> (t in r[i].tracks <==> t in pls[i].tracks))
    ensures forall i :: 0 <= i < |r| && pls[i].id == playlistId ==>
      r[i] == pls[i].(tracks := RemoveAll(pls[i].tracks, trackId))
  {
    Apply(pls, playlistId, p => WithoutTrack(p, trackId))
  }

  /** Adding an id that is already present in every target changes nothing. */
  lemma AddIdempotent(pls: seq<Playlist>, playlistId: string, trackId: string)
    ensures AddToPlaylist(AddToPlaylist(pls, playlistId, trackId), playlistId, trackId)
         == AddToPlaylist(pls, playlistId, trackId)
  {
  }

  /** Removing what was just added restores the playlists, when no target held the id. */
  lemma RemoveUndoesAdd(pls: seq<Playlist>, playlistId: string, trackId: string)
    requires forall i :: 0 <= i < |pls| && pls[i].id == playlistId ==> trackId !in pls[i].tracks
    ensures RemoveFromPlaylist(AddToPlaylist(pls, playlistId, trackId), playlistId, trackId) == pls
  {
    var a := AddToPlaylist(pls, playlistId, trackId);
    var r := RemoveFromPlaylist(a, playlistId, trackId);
    forall i | 0 <= i < |pls|
      ensures r[i] == pls[i]
    {
      if pls[i].id == playlistId {
        RemoveAllAfterAppend(pls[i].tracks, trackId);
      }
    }
  }

  /** `isLiked`: whether the first 'liked' playlist lists the track. */
  function IsLiked(pls: seq<Playlist>, trackId: string): bool {
    match FindPlaylist(pls, LikedId)
    case None => false
    case Some(p) => trackId in p.tracks
  }

  /** `toggleLike`: remove from or add to 'liked', decided by the first 'liked' playlist. */
  function ToggleLike(pls: seq<Playlist>, trackId: string): seq<Playlist> {
    match FindPlaylist(pls, LikedId)
    case None => pls
    case Some(p) =>
      if trackId in p.tracks then RemoveFromPlaylist(pls, LikedId, trackId)
      else AddToPlaylist(pls, LikedId, trackId)
  }

  /** The first playlist with an id stays the first one after an action keyed on that id. */
  lemma FindAfterApply(pls: seq<Playlist>, id: string, f: Playlist -> Playlist)
    requires forall p :: f(p).id == p.id
    ensures FindPlaylist(Apply(pls, id, f), id) ==
      match FindPlaylist(pls, id) case None => None case Some(p) => Some(f(p))
    decreases |pls|
  {
    if |pls| > 0 {
      var r := Apply(pls, id, f);
      if pls[0].id != id {
        assert r[1..] == Apply(pls[1..], id, f);
        FindAfterApply(pls[1..], id, f);
      }
    }
  }

  /**
   * toggleLike flips whether the track is liked, and leaves everything alone
   * when there is no 'liked' playlist.
   */
  lemma ToggleLikeFlips(pls: seq<Playlist>, trackId: string)
    ensures FindPlaylist(pls, LikedId).Some? ==> IsLiked(ToggleLike(pls, trackId), trackId) == !IsLiked(pls, trackId)
    ensures FindPlaylist(pls, LikedId).None? ==> ToggleLike(pls, trackId) == pls
    ensures forall t :: t != trackId ==> IsLiked(ToggleLike(pls, trackId), t) == IsLiked(pls, t)
  {
    match FindPlaylist(pls, LikedId)
    case None =>
    case Some(p) =>
      if trackId in p.tracks {
        FindAfterApply(pls, LikedId, q => WithoutTrack(q, trackId));
      } else {
        FindAfterApply(pls, LikedId, q => WithTrack(q, trackId));
      }
  }

  /** Liking and unliking a track that no 'liked' playlist held restores the playlists. */
  lemma ToggleLikeTwice(pls: seq<Playlist>, trackId: string)
    requires forall i :: 0 <= i < |pls| && pls[i].id == LikedId ==> trackId !in pls[i].tracks
    ensures ToggleLike(ToggleLike(pls, trackId), trackId) == pls
  {
    match FindPlaylist(pls, LikedId)
    case None =>
    case Some(p) =>
      FindAfterApply(pls, LikedId, q => WithTrack(q, trackId));
      RemoveUndoesAdd(pls, LikedId, trackId);
  }

  /** `createPlaylist`: a new, empty, user playlist with id `pl_<now>`. */
  function CreatePlaylist(pls: seq<Playlist>, name: string, description: Option<string>,
                          cover: Option<string>, now: int): (r: seq<Playlist>)
    ensures |r| == |pls| + 1 && r[..|pls|] == pls
    ensures var p := r[|pls|];
      p.id == "pl_" + IntToString(now) && p.name == name && p.tracks == [] && !p.isSystem
      && p.customCover == cover && p.description == Some(description.GetOr(""))
  {
    pls + [Playlist("pl_" + IntToString(now), name, Some(description.GetOr("")), cover, [], false)]
  }

  /** A playlist created with a fresh id is what a lookup of that id finds. */
  lemma CreateThenFind(pls: seq<Playlist>, name: string, description: Option<string>,
                       cover: Option<string>, now: int)
    requires FindPlaylist(pls, "pl_" + IntToString(now)).None?
    ensures FindPlaylist(CreatePlaylist(pls, name, description, cover, now), "pl_" + IntToString(now))
         == Some(CreatePlaylist(pls, name, description, cover, now)[|pls|])
  {
    FindAppend(pls, [CreatePlaylist(pls, name, description, cover, now)[|pls|]], "pl_" + IntToString(now));
  }

  lemma FindAppend(a: seq<Playlist>, b: seq<Playlist>, id: string)
    requires FindPlaylist(a, id).None?
    ensures FindPlaylist(a + b, id) == FindPlaylist(b, id)
    decreases |a|
  {
    if |a| > 0 {
      assert a[0].id != id;
      assert FindPlaylist(a[1..], id).None?;
      assert (a + b)[0] == a[0] && (a + b)[1..] == a[1..] + b;
      FindAppend(a[1..], b, id);
    } else {
      assert a + b == b;
    }
  }

  /** `editPlaylist`: replace name, description and cover of each matching playlist. */
  function EditPlaylist(pls: seq<Playlist>, id: string, name: string, description: Option<string>,
                        cover: Option<string>): (r: seq<Playlist>)
    ensures |r| == |pls|
    ensures forall i :: 0 <= i < |r| ==>
      r[i].id == pls[i].id && r[i].tracks == pls[i].tracks && r[i].isSystem == pls[i].isSystem
    ensures forall i :: 0 <= i < |r| && pls[i].id != id ==> r[i] == pls[i]
    ensures forall i :: 0 <= i < |r| && pls[i].id == id ==>
      r[i].name == name && r[i].description == description && r[i].customCover == cover
  {
    Apply(pls, id, (p: Playlist) => p.(name := name, description := description, customCover := cover))
  }

  /** Editing twice with the same values is the same as editing once. */
  lemma EditIdempotent(pls: seq<Playlist>, id: string, name: string, description: Option<string>,
                       cover: Option<string>)
    ensures EditPlaylist(EditPlaylist(pls, id, name, description, cover), id, name, description, cover)
         == EditPlaylist(pls, id, name, description, cover)
  {
  }

  /** The filter predicate of `confirmDeletePlaylist`. */
  function OtherThan(id: string): Playlist -> bool {
    (p: Playlist) => p.id != id
  }

  /** The filter of `confirmDeletePlaylist`. */
  function DeletePlaylist(pls: seq<Playlist>, id: string): (r: seq<Playlist>)
    ensures forall p :: p in r <==> p in pls && p.id != id
    ensures IsSubseq(r, pls)
    ensures FindPlaylist(r, id).None?
  {
    FilterIsSubseq(pls, OtherThan(id));
    Filter(pls, OtherThan(id))
  }

  /** Deleting a freshly created playlist gives back the playlists before it. */
  lemma DeleteUndoesCreate(pls: seq<Playlist>, name: string, description: Option<string>,
                           cover: Option<string>, now: int)
    requires FindPlaylist(pls, "pl_" + IntToString(now)).None?
    ensures DeletePlaylist(CreatePlaylist(pls, name, description, cover, now), "pl_" + IntToString(now)) == pls
  {
    var id := "pl_" + IntToString(now);
    var created := CreatePlaylist(pls, name, description, cover, now);
    assert created == pls + [created[|pls|]];
    FilterAppend(pls, [created[|pls|]], OtherThan(id));
    FilterAll(pls, OtherThan(id));
    assert Filter([created[|pls|]], OtherThan(id)) == [];
  }
}
