/**
 * The release wizard of the newer artist hub (src/components/ArtistHub.tsx):
 * the three-step gate, the submit handler with its label and artist fallbacks
 * and its create-or-update dispatch, the form reset, and the release listings
 * of the artist and moderator dashboards. The store operations the handlers
 * call (`submitRelease`, `updateReleaseRequest`) are not part of this model:
 * a submit returns the call it makes.
 */
module ReleaseWizard {
  import opened Wrappers
  import opened Text
  import opened Seqs
  import opened Types
  import opened DraftTracks

  datatype HubView =
    | AuthView | ArtistDash | ModDash | Distribution | ProfileEdit | ArtistPickView
    | ModCredentials | ModAllReleases | ModSettings | ModAllTracks

  /** The wizard's fields at one moment. */
  datatype DistForm = DistForm(
    step: int,
    title: string,
    artistName: string,
    releaseType: ReleaseType,
    genre: string,
    recordLabel: string,
    covers: seq<string>,
    mainArtists: seq<string>,
    tracks: seq<DistributionTrack>,
    isEditing: bool,
    editingId: Option<string>,
    date: string,
    time: string,
    message: string)

  const MissingFields: string := "Please complete all required fields (Title, Type, Genre, Covers)"
  const MissingArtist: string := "Artist Name is required for Moderator uploads."
  const MissingTracks: string := "Please add at least one track."
  const MissingDate: string := "Please specify Release Date and Time."
  const ReleaseUpdated: string := "Release updated successfully."
  const ReleaseSubmitted: string := "Release submitted!"

  /** Step 1 asks for a title, a genre and a cover, and from a moderator an artist name too. */
  predicate DetailsComplete(f: DistForm, isModerator: bool) {
    f.title != "" && f.genre != "" && |f.covers| > 0 && (isModerator ==> f.artistName != "")
  }

  /**
   * The check of `handleNextStep`: the error it reports, if any. The release
   * type is always one of the four types, so its test never fails.
   */
  function StepCheck(f: DistForm, isModerator: bool): (e: Option<string>)
    ensures e.None? <==> (f.step == 1 ==> DetailsComplete(f, isModerator)) && (f.step == 2 ==> |f.tracks| > 0)
    ensures e == Some(MissingFields) <==> f.step == 1 && (f.title == "" || f.genre == "" || |f.covers| == 0)
    ensures e == Some(MissingArtist) <==>
      f.step == 1 && f.title != "" && f.genre != "" && |f.covers| > 0 && isModerator && f.artistName == ""
    ensures e == Some(MissingTracks) <==> f.step == 2 && |f.tracks| == 0
  {
    if f.step == 1 && (f.title == "" || f.genre == "" || |f.covers| == 0) then Some(MissingFields)
    else if f.step == 1 && isModerator && f.artistName == "" then Some(MissingArtist)
    else if f.step == 2 && |f.tracks| == 0 then Some(MissingTracks)
    else None
  }

  /** `distLabel || (currentArtist?.artistName || distArtistName || "Independent")`. */
  function ReleaseLabel(distLabel: string, currentArtistName: Option<string>, distArtistName: string): (l: string)
    ensures l != ""
    ensures distLabel != "" ==> l == distLabel
    ensures distLabel == "" && Truthy(currentArtistName) ==> l == currentArtistName.value
    ensures distLabel == "" && !Truthy(currentArtistName) && distArtistName != "" ==> l == distArtistName
    ensures distLabel == "" && !Truthy(currentArtistName) && distArtistName == "" ==> l == "Independent"
  {
    if distLabel != "" then distLabel
    else if Truthy(currentArtistName) then currentArtistName.value
    else if distArtistName != "" then distArtistName
    else "Independent"
  }

  /** The release as sent to the store. */
  datatype Payload = Payload(
    title: string,
    releaseType: ReleaseType,
    genre: string,
    recordLabel: string,
    covers: seq<string>,
    additionalMainArtists: seq<string>,
    tracks: seq<DistributionTrack>,
    releaseDate: string,
    releaseMessage: string)

  /** The artist a moderator's submission is filed under. */
  datatype ArtistOverride = ArtistOverride(artistId: string, artistName: string)

  /** The store call a submit makes. */
  datatype HubCall =
    | NoCall
    | Submit(payload: Payload, override: Option<ArtistOverride>)
    | Update(id: string, payload: Payload, artistName: string)

  /** `releaseRequests.find(r => r.id === id)`. */
  function FindRequest(rs: seq<ReleaseRequest>, id: string): (r: Option<ReleaseRequest>)
    ensures r.Some? <==> exists i :: 0 <= i < |rs| && rs[i].id == id
    ensures r.Some? ==> r.value in rs && r.value.id == id
  {
    if |rs| == 0 then None
    else if rs[0].id == id then Some(rs[0])
    else
      assert forall i :: 1 <= i < |rs| ==> rs[i] == rs[1..][i - 1];
      FindRequest(rs[1..], id)
  }

  /** `va_${Date.now()}`. */
  function FreshArtistId(now: int): string {
    "va_" + IntToString(now)
  }

  /**
   * `overrideArtist`: only for a moderator; the name entered or "Various
   * Artists"; the id of the edited request's artist when an existing request
   * (an id not starting with 'a') is edited and has one, else a fresh `va_` id.
   */
  function Override(f: DistForm, isModerator: bool, requests: seq<ReleaseRequest>, now: int): (o: Option<ArtistOverride>)
    ensures o.Some? <==> isModerator
    ensures o.Some? ==> o.value.artistName == (if f.artistName != "" then f.artistName else "Various Artists")
    ensures o.Some? ==> o.value.artistName != ""
  {
    if !isModerator then None
    else
      var id :=
        if f.isEditing && Truthy(f.editingId) && !StartsWith(f.editingId.value, "a") then
          match FindRequest(requests, f.editingId.value)
          case Some(r) => if r.artistId != "" then r.artistId else FreshArtistId(now)
          case None => FreshArtistId(now)
        else FreshArtistId(now);
      Some(ArtistOverride(id, if f.artistName != "" then f.artistName else "Various Artists"))
  }

  /** The release date and time as `new Date(`${date}T${time}:00+03:00`).toISOString()`; `toIso` stands for the date library. */
  function ReleaseDate(date: string, time: string, toIso: string -> string): string {
    toIso(date + "T" + time + ":00+03:00")
  }

  function PayloadOf(f: DistForm, currentArtistName: Option<string>, toIso: string -> string): Payload {
    Payload(f.title, f.releaseType, f.genre, ReleaseLabel(f.recordLabel, currentArtistName, f.artistName),
            f.covers, f.mainArtists, f.tracks, ReleaseDate(f.date, f.time, toIso), f.message)
  }

  /**
   * What `handleSubmitRelease` sends: nothing without a date and a time; an
   * update of the edited request when editing; a new submission otherwise.
   */
  function SubmitCall(f: DistForm, isModerator: bool, currentArtistName: Option<string>,
                      requests: seq<ReleaseRequest>, now: int, toIso: string -> string): (c: HubCall)
    ensures c.NoCall? <==> f.date == "" || f.time == ""
    ensures c.Update? <==> f.date != "" && f.time != "" && f.isEditing && Truthy(f.editingId)
    ensures c.Update? ==> c.id == f.editingId.value
    ensures c.Submit? ==> c.override == Override(f, isModerator, requests, now)
    ensures !c.NoCall? ==> c.payload == PayloadOf(f, currentArtistName, toIso)
  {
    if f.date == "" || f.time == "" then NoCall
    else
      var o := Override(f, isModerator, requests, now);
      var payload := PayloadOf(f, currentArtistName, toIso);
      if f.isEditing && Truthy(f.editingId) then
        var previous := FindRequest(requests, f.editingId.value);
        Update(f.editingId.value, payload,
               if o.Some? then o.value.artistName
               else if previous.Some? && previous.value.artistName != "" then previous.value.artistName
               else "")
      else Submit(payload, o)
  }

  /**
   * What a submit promises: the label is never empty and follows the fallback
   * chain; an edit is never filed as a new submission; a moderator's update
   * names the entered artist or "Various Artists", an artist's keeps the
   * request's artist name.
   */
  lemma SubmitPromises(f: DistForm, isModerator: bool, currentArtistName: Option<string>,
                       requests: seq<ReleaseRequest>, now: int, toIso: string -> string)
    ensures var c := SubmitCall(f, isModerator, currentArtistName, requests, now, toIso);
      && (!c.NoCall? ==> c.payload.recordLabel != "" && c.payload.tracks == f.tracks)
      && (f.isEditing && Truthy(f.editingId) ==> !c.Submit?)
      && (c.Update? && isModerator ==>
            c.artistName == (if f.artistName != "" then f.artistName else "Various Artists"))
      && (c.Update? && !isModerator ==>
            c.artistName == match FindRequest(requests, f.editingId.value) case Some(r) => r.artistName case None => "")
  {
  }

  /** The request listing of the artist dashboard: the artist's requests that are not yet live. */
  function PendingReleases(requests: seq<ReleaseRequest>, artistId: string): (r: seq<ReleaseRequest>)
    ensures forall q :: q in r <==> q in requests && q.artistId == artistId && q.status != Live
    ensures IsSubseq(r, requests)
  {
    FilterIsSubseq(requests, (q: ReleaseRequest) => q.artistId == artistId && q.status != Live);
    Filter(requests, (q: ReleaseRequest) => q.artistId == artistId && q.status != Live)
  }

  /** An album of the catalogue that no release request accounts for. */
  predicate IsLegacy(requests: seq<ReleaseRequest>, a: Album) {
    !StartsWith(a.id, "dist_alb_") && FindRequest(requests, a.id).None?
  }

  /** The filter of `legacyAlbumsAsReleases`. */
  function LegacyAlbums(albums: seq<Album>, requests: seq<ReleaseRequest>): (r: seq<Album>)
    ensures forall a :: a in r <==>
      a in albums && !StartsWith(a.id, "dist_alb_") && forall q :: q in requests ==> q.id != a.id
    ensures IsSubseq(r, albums)
  {
    FilterIsSubseq(albums, a => IsLegacy(requests, a));
    Filter(albums, a => IsLegacy(requests, a))
  }

  /** A catalogue track shown as a release track; an id without a track shows an empty one. */
  function LegacyTrack(tracks: seq<Track>, id: string): DistributionTrack {
    match FindTrack(tracks, id)
    case Some(t) => DistributionTrack(t.title, t.explicit, None, t.mainArtists, None, "", t.duration, None, None, Some(t.artist))
    case None => DistributionTrack("", false, None, [], None, "", 0.0, None, None, None)
  }

  /** An entry of the moderator's release list: a request, or an album presented as a live release. */
  datatype Listed =
    | Requested(request: ReleaseRequest)
    | LegacyRelease(id: string, title: string, artistName: string, releaseType: ReleaseType,
                    releaseDate: string, covers: seq<string>, recordLabel: Option<string>,
                    tracks: seq<DistributionTrack>)

  function ListedDate(l: Listed): string {
    match l
    case Requested(r) => r.releaseDate
    case LegacyRelease(_, _, _, _, d, _, _, _) => d
  }

  /**
   * An album as a live release: type defaulting to Album, date to 1 January of
   * its year (`yearIso` stands for `new Date(year, 0, 1).toISOString()`), one
   * release track per listed id.
   */
  function AsRelease(a: Album, tracks: seq<Track>, yearIso: int -> string): (l: Listed)
    ensures l.LegacyRelease? && l.id == a.id && |l.tracks| == |a.trackIds|
    ensures forall i :: 0 <= i < |a.trackIds| ==> l.tracks[i] == LegacyTrack(tracks, a.trackIds[i])
  {
    LegacyRelease(a.id, a.title, a.artist, a.releaseType.GetOr(AlbumType),
                  if Truthy(a.releaseDate) then a.releaseDate.value else yearIso(a.year),
                  a.covers, a.recordLabel,
                  seq(|a.trackIds|, i requires 0 <= i < |a.trackIds| => LegacyTrack(tracks, a.trackIds[i])))
  }

  /** The requests as list entries, in order. */
  function AsRequested(requests: seq<ReleaseRequest>): (r: seq<Listed>)
    ensures |r| == |requests|
    ensures forall i :: 0 <= i < |requests| ==> r[i] == Requested(requests[i])
  {
    seq(|requests|, i requires 0 <= i < |requests| => Requested(requests[i]))
  }

  /** The legacy albums as list entries, in order. */
  function AsReleases(legacy: seq<Album>, tracks: seq<Track>, yearIso: int -> string): (r: seq<Listed>)
    ensures |r| == |legacy|
    ensures forall i :: 0 <= i < |legacy| ==> r[i] == AsRelease(legacy[i], tracks, yearIso)
  {
    seq(|legacy|, i requires 0 <= i < |legacy| => AsRelease(legacy[i], tracks, yearIso))
  }

  /** `[...releaseRequests, ...legacyAlbumsAsReleases]`. */
  function Combined(requests: seq<ReleaseRequest>, albums: seq<Album>, tracks: seq<Track>,
                    yearIso: int -> string): seq<Listed> {
    AsRequested(requests) + AsReleases(LegacyAlbums(albums, requests), tracks, yearIso)
  }

  function DateKey(parse: string -> int): Listed -> int {
    (l: Listed) => parse(ListedDate(l))
  }

  /**
   * `allDisplayReleases`: the requests and the legacy albums, sorted by release
   * time (`parse` stands for `new Date(d).getTime()`), newest first.
   */
  function AllDisplayReleases(requests: seq<ReleaseRequest>, albums: seq<Album>, tracks: seq<Track>,
                              yearIso: int -> string, parse: string -> int): (r: seq<Listed>)
    ensures multiset(r) == multiset(Combined(requests, albums, tracks, yearIso))
    ensures SortedDesc(r, DateKey(parse))
  {
    SortDesc(Combined(requests, albums, tracks, yearIso), DateKey(parse))
  }

  /** Every request appears in the moderator's list. */
  lemma RequestsListed(requests: seq<ReleaseRequest>, albums: seq<Album>, tracks: seq<Track>,
                       yearIso: int -> string, parse: string -> int)
    ensures forall q :: q in requests ==> Requested(q) in AllDisplayReleases(requests, albums, tracks, yearIso, parse)
  {
    var r := AllDisplayReleases(requests, albums, tracks, yearIso, parse);
    var c := Combined(requests, albums, tracks, yearIso);
    forall q | q in requests
      ensures Requested(q) in r
    {
      var i :| 0 <= i < |requests| && requests[i] == q;
      assert c[i] == Requested(q);
      assert Requested(q) in multiset(c);
    }
  }

  /** An album of the list joined after the requests is one of its entries. */
  lemma AlbumJoined(requests: seq<ReleaseRequest>, legacy: seq<Album>, tracks: seq<Track>,
                    yearIso: int -> string, a: Album)
    requires a in legacy
    ensures AsRelease(a, tracks, yearIso) in AsRequested(requests) + AsReleases(legacy, tracks, yearIso)
  {
    var c := AsRequested(requests) + AsReleases(legacy, tracks, yearIso);
    var i :| 0 <= i < |legacy| && legacy[i] == a;
    assert c[|requests| + i] == AsRelease(a, tracks, yearIso);
  }

  /** Every legacy album appears in the moderator's list as a live release. */
  lemma LegacyListed(requests: seq<ReleaseRequest>, albums: seq<Album>, tracks: seq<Track>,
                     yearIso: int -> string, parse: string -> int)
    ensures forall a :: a in LegacyAlbums(albums, requests) ==>
      AsRelease(a, tracks, yearIso) in AllDisplayReleases(requests, albums, tracks, yearIso, parse)
  {
    var r := AllDisplayReleases(requests, albums, tracks, yearIso, parse);
    var legacy := LegacyAlbums(albums, requests);
    forall a | a in legacy
      ensures AsRelease(a, tracks, yearIso) in r
    {
      AlbumJoined(requests, legacy, tracks, yearIso, a);
      assert AsRelease(a, tracks, yearIso) in multiset(Combined(requests, albums, tracks, yearIso));
    }
  }

  /** An entry of the joined list is one of the requests or one of the albums. */
  lemma JoinedEntry(requests: seq<ReleaseRequest>, legacy: seq<Album>, tracks: seq<Track>,
                    yearIso: int -> string, l: Listed)
    requires l in AsRequested(requests) + AsReleases(legacy, tracks, yearIso)
    ensures (l.Requested? && l.request in requests) || exists a :: a in legacy && l == AsRelease(a, tracks, yearIso)
  {
    var c := AsRequested(requests) + AsReleases(legacy, tracks, yearIso);
    var k :| 0 <= k < |c| && c[k] == l;
    if k >= |requests| {
      var a := legacy[k - |requests|];
      assert a in legacy && l == AsRelease(a, tracks, yearIso);
    } else {
      assert l == Requested(requests[k]);
    }
  }

  /** Nothing but the requests and the legacy albums appears in the moderator's list. */
  lemma OnlyListed(requests: seq<ReleaseRequest>, albums: seq<Album>, tracks: seq<Track>,
                   yearIso: int -> string, parse: string -> int)
    ensures forall l :: l in AllDisplayReleases(requests, albums, tracks, yearIso, parse) ==>
      (l.Requested? && l.request in requests)
      || exists a :: a in LegacyAlbums(albums, requests) && l == AsRelease(a, tracks, yearIso)
  {
    var r := AllDisplayReleases(requests, albums, tracks, yearIso, parse);
    var legacy := LegacyAlbums(albums, requests);
    forall l | l in r
      ensures (l.Requested? && l.request in requests)
        || exists a :: a in legacy && l == AsRelease(a, tracks, yearIso)
    {
      assert l in multiset(r);
      JoinedEntry(requests, legacy, tracks, yearIso, l);
    }
  }

  class Wizard {
    var step: int
    var title: string
    var artistName: string
    var releaseType: ReleaseType
    var genre: string
    var recordLabel: string
    var covers: seq<string>
    var mainArtists: seq<string>
    const editor: DraftEditor
    var isEditing: bool
    var editingId: Option<string>
    var date: string
    var time: string
    var message: string
    var view: HubView

    /** The wizard's initial state. */
    constructor ()
      ensures Form() == DistForm(1, "", "", Single, "Pop", "", [], [], [], false, None, "", "00:00", "")
      ensures editor.artistInputs == map[] && fresh(editor)
      ensures view == AuthView
    {
      step := 1;
      title := "";
      artistName := "";
      releaseType := Single;
      genre := "Pop";
      recordLabel := "";
      covers := [];
      mainArtists := [];
      editor := new DraftEditor();
      isEditing := false;
      editingId := None;
      date := "";
      time := "00:00";
      message := "";
      view := AuthView;
    }

    function Form(): DistForm
      reads this, editor
    {
      DistForm(step, title, artistName, releaseType, genre, recordLabel, covers, mainArtists,
               editor.tracks, isEditing, editingId, date, time, message)
    }

    /**
     * `handleNextStep`: one step further when the current step's check passes;
     * otherwise the step stays and `notice` is the error shown.
     */
    method NextStep(isModerator: bool) returns (notice: Option<string>)
      modifies this`step
      ensures notice == StepCheck(old(Form()), isModerator)
      ensures step == if notice.None? then old(step) + 1 else old(step)
    {
      if step == 1 {
        if title == "" || genre == "" || |covers| == 0 {
          return Some(MissingFields);
        }
        if isModerator && artistName == "" {
          return Some(MissingArtist);
        }
      }
      if step == 2 {
        if |editor.tracks| == 0 {
          return Some(MissingTracks);
        }
      }
      step := step + 1;
      notice := None;
    }

    /**
     * `resetDistForm`: back to step 1 with no title, artist, tracks, covers,
     * message, main artists, tag inputs or edit target; type, genre, label,
     * date and time are kept.
     */
    method ResetDistForm()
      modifies this`step, this`title, this`artistName, this`covers, this`message, this`mainArtists,
               this`isEditing, this`editingId, editor`tracks, editor`artistInputs
      ensures step == 1 && title == "" && artistName == "" && editor.tracks == [] && covers == []
      ensures message == "" && mainArtists == [] && editor.artistInputs == map[] && !isEditing && editingId == None
    {
      step := 1;
      title := "";
      artistName := "";
      editor.Clear();
      covers := [];
      message := "";
      mainArtists := [];
      isEditing := false;
      editingId := None;
    }

    /**
     * The call `handleSubmitRelease` makes once a date and a time are set: the
     * payload with its label fallbacks, then an update of the edited request or
     * a new submission.
     */
    method BuildCall(isModerator: bool, currentArtistName: Option<string>, requests: seq<ReleaseRequest>,
                     now: int, toIso: string -> string) returns (call: HubCall)
      requires date != "" && time != ""
      ensures call == SubmitCall(Form(), isModerator, currentArtistName, requests, now, toIso)
    {
      var f := Form();
      var overrideArtist := Override(f, isModerator, requests, now);
      var payload := Payload(title, releaseType, genre,
                             if recordLabel != "" then recordLabel
                             else if Truthy(currentArtistName) then currentArtistName.value
                             else if artistName != "" then artistName
                             else "Independent",
                             covers, mainArtists, editor.tracks, toIso(date + "T" + time + ":00+03:00"), message);
      if isEditing && Truthy(editingId) {
        var previous := FindRequest(requests, editingId.value);
        var name := if overrideArtist.Some? then overrideArtist.value.artistName
                    else if previous.Some? && previous.value.artistName != "" then previous.value.artistName
                    else "";
        call := Update(editingId.value, payload, name);
      } else {
        call := Submit(payload, overrideArtist);
      }
    }

    /**
     * `handleSubmitRelease`: without a date and time nothing changes and the
     * date error is shown; otherwise the call is made, its notice shown, the
     * dashboard of the user's role opened and the form reset.
     */
    method SubmitRelease(isModerator: bool, currentArtistName: Option<string>, requests: seq<ReleaseRequest>,
                         now: int, toIso: string -> string) returns (call: HubCall, notice: string)
      modifies this`step, this`title, this`artistName, this`covers, this`message, this`mainArtists,
               this`isEditing, this`editingId, this`view, editor`tracks, editor`artistInputs
      ensures call == SubmitCall(old(Form()), isModerator, currentArtistName, requests, now, toIso)
      ensures notice == match call
        case NoCall => MissingDate
        case Update(_, _, _) => ReleaseUpdated
        case Submit(_, _) => ReleaseSubmitted
      ensures call.NoCall? ==> Form() == old(Form()) && view == old(view) && editor.artistInputs == old(editor.artistInputs)
      ensures releaseType == old(releaseType) && genre == old(genre) && recordLabel == old(recordLabel)
      ensures date == old(date) && time == old(time)
      ensures !call.NoCall? ==> view == (if isModerator then ModAllReleases else ArtistDash)
      ensures !call.NoCall? ==>
        step == 1 && title == "" && artistName == "" && editor.tracks == [] && covers == []
        && message == "" && mainArtists == [] && editor.artistInputs == map[] && !isEditing && editingId == None
    {
      if date == "" || time == "" {
        return NoCall, MissingDate;
      }
      call := BuildCall(isModerator, currentArtistName, requests, now, toIso);
      notice := if call.Update? then ReleaseUpdated else ReleaseSubmitted;
      if isModerator {
        view := ModAllReleases;
      } else {
        view := ArtistDash;
      }
      ResetDistForm();
    }
  }
}
