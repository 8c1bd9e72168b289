/**
 * The create/edit playlist dialog (components/CreatePlaylistModal.tsx): the
 * effect that fills the form when the dialog opens, and the save handler that
 * either creates or edits a playlist through the store.
 */
module PlaylistModal {
  import opened Wrappers
  import opened Text
  import opened Types
  import Playlists

  /** The store action a save makes. */
  datatype SaveCall =
    | NoSave
    | Create(name: string, description: string, cover: Option<string>)
    | Edit(id: string, name: string, description: string, cover: Option<string>)

  /** `cover || undefined`: an empty cover is sent as absent. */
  function SentCover(cover: Option<string>): (c: Option<string>)
    ensures c.Some? <==> Truthy(cover)
    ensures c.Some? ==> c == cover
  {
    if Truthy(cover) then cover else None
  }

  /**
   * What saving the form does: nothing for a blank name; otherwise an edit of
   * the playlist being edited, or the creation of a new one.
   */
  function SaveAction(name: string, description: string, cover: Option<string>,
                      playlistIdToEdit: Option<string>): (c: SaveCall)
    ensures c.NoSave? <==> IsBlank(name)
    ensures c.Edit? <==> !IsBlank(name) && Truthy(playlistIdToEdit)
    ensures c.Edit? ==> c.id == playlistIdToEdit.value
    ensures !c.NoSave? ==> c.name == name && c.description == description && c.cover == SentCover(cover)
  {
    if IsBlank(name) then NoSave
    else if Truthy(playlistIdToEdit) then Edit(playlistIdToEdit.value, name, description, SentCover(cover))
    else Create(name, description, SentCover(cover))
  }

  /** The store's playlists after a save call, `now` being the clock of `createPlaylist`. */
  function Perform(pls: seq<Playlist>, call: SaveCall, now: int): seq<Playlist> {
    match call
    case NoSave => pls
    case Create(name, description, cover) => Playlists.CreatePlaylist(pls, name, Some(description), cover, now)
    case Edit(id, name, description, cover) => Playlists.EditPlaylist(pls, id, name, Some(description), cover)
  }

  /**
   * A save done in create mode appends one playlist carrying the form's values;
   * one done in edit mode changes only the edited playlist, which then carries
   * them; a blank name changes nothing.
   */
  lemma SaveEffect(pls: seq<Playlist>, name: string, description: string, cover: Option<string>,
                   playlistIdToEdit: Option<string>, now: int)
    ensures var call := SaveAction(name, description, cover, playlistIdToEdit);
      var r := Perform(pls, call, now);
      && (IsBlank(name) ==> r == pls)
      && (call.Create? ==>
            |r| == |pls| + 1 && r[..|pls|] == pls && r[|pls|].name == name
            && r[|pls|].description == Some(description) && r[|pls|].customCover == SentCover(cover)
            && r[|pls|].tracks == [] && !r[|pls|].isSystem)
      && (call.Edit? ==>
            |r| == |pls|
            && (forall i :: 0 <= i < |r| && pls[i].id != playlistIdToEdit.value ==> r[i] == pls[i])
            && (forall i :: 0 <= i < |r| && pls[i].id == playlistIdToEdit.value ==>
                  r[i].name == name && r[i].description == Some(description)
                  && r[i].customCover == SentCover(cover) && r[i].tracks == pls[i].tracks))
  {
  }

  class Dialog {
    var name: string
    var description: string
    var cover: Option<string>

    constructor ()
      ensures name == "" && description == "" && cover == None
    {
      name := "";
      description := "";
      cover := None;
    }

    /**
     * The open-time effect. In create mode the form is emptied; in edit mode it
     * is filled from the playlist being edited, and left as it was when no
     * playlist has that id. A closed dialog keeps its form.
     */
    method OnOpen(isOpen: bool, playlistIdToEdit: Option<string>, playlists: seq<Playlist>)
      modifies this`name, this`description, this`cover
      ensures !isOpen ==> name == old(name) && description == old(description) && cover == old(cover)
      ensures isOpen && !Truthy(playlistIdToEdit) ==> name == "" && description == "" && cover == None
      ensures isOpen && Truthy(playlistIdToEdit) ==>
        match Playlists.FindPlaylist(playlists, playlistIdToEdit.value)
        case None => name == old(name) && description == old(description) && cover == old(cover)
        case Some(pl) =>
          name == pl.name && description == pl.description.GetOr("")
          && cover == (if Truthy(pl.customCover) then pl.customCover else None)
    {
      if isOpen {
        if Truthy(playlistIdToEdit) {
          var found := Playlists.FindPlaylist(playlists, playlistIdToEdit.value);
          if found.Some? {
            var pl := found.value;
            name := pl.name;
            description := pl.description.GetOr("");
            cover := if Truthy(pl.customCover) then pl.customCover else None;
          }
        } else {
          name := "";
          description := "";
          cover := None;
        }
      }
    }

    /**
     * `handleSave`: the store call made and whether the dialog closes. A blank
     * name only raises the "Name is required" alert and keeps the dialog open.
     */
    method HandleSave(playlistIdToEdit: Option<string>) returns (call: SaveCall, close: bool)
      ensures call == SaveAction(name, description, cover, playlistIdToEdit)
      ensures close <==> !IsBlank(name)
    {
      if IsBlank(name) {
        return NoSave, false;
      }
      var sent := if Truthy(cover) then cover else None;
      if Truthy(playlistIdToEdit) {
        call := Edit(playlistIdToEdit.value, name, description, sent);
      } else {
        call := Create(name, description, sent);
      }
      close := true;
    }
  }
}
