/**
 * The release wizard of the older artist hub (components/ArtistHub.tsx): its
 * two-step gate without the moderator check, its submit handler that always
 * files a new submission, the artist-pick search and the derived values of the
 * release detail dialog. The track editing of step 2 is the shared
 * `DraftTracks.DraftEditor`; the store's `submitRelease` is not part of this
 * model, so a submit returns the payload it sends.
 */
module LegacyReleaseWizard {
  import opened Wrappers
  import opened Text
  import opened Seqs
  import opened Types
  import opened DraftTracks
  import ReleaseWizard

  datatype HubView = AuthView | ArtistDash | ModDash | Distribution | ProfileEdit | ArtistPick

  const Submitted: string := "Release submitted for approval!"

  /** The wizard's fields at one moment. */
  datatype DistForm = DistForm(
    step: int,
    title: string,
    releaseType: ReleaseType,
    genre: string,
    recordLabel: string,
    covers: seq<string>,
    mainArtists: seq<string>,
    tracks: seq<DistributionTrack>,
    date: string,
    time: string,
    message: string)

  /**
   * The check of `handleNextStep`: step 1 needs a title, a genre and a cover
   * (the release type is always set), step 2 a track; there is no check on the
   * artist.
   */
  function StepCheck(f: DistForm): (e: Option<string>)
    ensures e.None? <==>
      (f.step == 1 ==> f.title != "" && f.genre != "" && |f.covers| > 0) && (f.step == 2 ==> |f.tracks| > 0)
    ensures e == Some(ReleaseWizard.MissingFields) <==> f.step == 1 && (f.title == "" || f.genre == "" || |f.covers| == 0)
    ensures e == Some(ReleaseWizard.MissingTracks) <==> f.step == 2 && |f.tracks| == 0
  {
    if f.step == 1 && (f.title == "" || f.genre == "" || |f.covers| == 0) then Some(ReleaseWizard.MissingFields)
    else if f.step == 2 && |f.tracks| == 0 then Some(ReleaseWizard.MissingTracks)
    else None
  }

  /** The older hub's gate is the newer one's for a non-moderator. */
  lemma StepCheckAgrees(f: DistForm, artistName: string, isEditing: bool, editingId: Option<string>)
    ensures StepCheck(f) == ReleaseWizard.StepCheck(
      ReleaseWizard.DistForm(f.step, f.title, artistName, f.releaseType, f.genre, f.recordLabel, f.covers,
                             f.mainArtists, f.tracks, isEditing, editingId, f.date, f.time, f.message), false)
  {
  }

  /** `distLabel || (currentArtist?.artistName || "")`: empty only when both are. */
  function ReleaseLabel(distLabel: string, currentArtistName: Option<string>): (l: string)
    ensures l == "" <==> distLabel == "" && !Truthy(currentArtistName)
    ensures distLabel != "" ==> l == distLabel
    ensures l != "" && l != distLabel ==> Truthy(currentArtistName) && l == currentArtistName.value
  {
    if distLabel != "" then distLabel
    else if Truthy(currentArtistName) then currentArtistName.value
    else ""
  }

  /**
   * What `handleSubmitRelease` sends: nothing without a date and a time,
   * otherwise the form as a new submission.
   */
  function SubmitPayload(f: DistForm, currentArtistName: Option<string>, toIso: string -> string): (p: Option<ReleaseWizard.Payload>)
    ensures p.None? <==> f.date == "" || f.time == ""
    ensures p.Some? ==>
      p.value.title == f.title && p.value.releaseType == f.releaseType && p.value.genre == f.genre
      && p.value.covers == f.covers && p.value.additionalMainArtists == f.mainArtists
      && p.value.tracks == f.tracks && p.value.releaseMessage == f.message
      && p.value.recordLabel == ReleaseLabel(f.recordLabel, currentArtistName)
      && p.value.releaseDate == ReleaseWizard.ReleaseDate(f.date, f.time, toIso)
  {
    if f.date == "" || f.time == "" then None
    else Some(ReleaseWizard.Payload(f.title, f.releaseType, f.genre, ReleaseLabel(f.recordLabel, currentArtistName),
                                    f.covers, f.mainArtists, f.tracks, ReleaseWizard.ReleaseDate(f.date, f.time, toIso),
                                    f.message))
  }

  /**
   * Where the two hubs' labels part: with no label entered and no artist
   * signed in, the older hub sends an empty label and the newer one never does.
   */
  lemma LabelsDiffer(currentArtistName: Option<string>, distArtistName: string)
    requires !Truthy(currentArtistName)
    ensures ReleaseLabel("", currentArtistName) == ""
    ensures ReleaseWizard.ReleaseLabel("", currentArtistName, distArtistName) != ""
  {
  }

  /** The most results the artist-pick search lists of each kind. */
  const PickLimit: nat := 5

  function TrackMatches(query: string): Track -> bool {
    (t: Track) => Includes(Lower(t.title), Lower(query)) || Includes(Lower(t.artist), Lower(query))
  }

  function AlbumMatches(query: string): Album -> bool {
    (a: Album) => Includes(Lower(a.title), Lower(query)) || Includes(Lower(a.artist), Lower(query))
  }

  /** The lowered query occurs in the track's lowered title or artist. */
  ghost predicate TrackFound(query: string, t: Track) {
    IsSubstring(Lower(query), Lower(t.title)) || IsSubstring(Lower(query), Lower(t.artist))
  }

  /** The lowered query occurs in the album's lowered title or artist. */
  ghost predicate AlbumFound(query: string, a: Album) {
    IsSubstring(Lower(query), Lower(a.title)) || IsSubstring(Lower(query), Lower(a.artist))
  }

  /** The catalogue tracks matching the query, in catalogue order. */
  function PickTracks(query: string, tracks: seq<Track>): (r: seq<Track>)
    ensures IsSubseq(r, tracks)
    ensures forall t :: t in r <==> t in tracks && TrackFound(query, t)
  {
    FilterIsSubseq(tracks, TrackMatches(query));
    forall t: Track
      ensures TrackMatches(query)(t) <==> TrackFound(query, t)
    {
      IncludesMeansSubstring(Lower(t.title), Lower(query));
      IncludesMeansSubstring(Lower(t.artist), Lower(query));
    }
    Filter(tracks, TrackMatches(query))
  }

  /** The catalogue albums matching the query, in catalogue order. */
  function PickAlbums(query: string, albums: seq<Album>): (r: seq<Album>)
    ensures IsSubseq(r, albums)
    ensures forall a :: a in r <==> a in albums && AlbumFound(query, a)
  {
    FilterIsSubseq(albums, AlbumMatches(query));
    forall a: Album
      ensures AlbumMatches(query)(a) <==> AlbumFound(query, a)
    {
      IncludesMeansSubstring(Lower(a.title), Lower(query));
      IncludesMeansSubstring(Lower(a.artist), Lower(query));
    }
    Filter(albums, AlbumMatches(query))
  }

  datatype PickResults = PickResults(tracks: seq<Track>, albums: seq<Album>)

  /**
   * `searchResults` of the artist-pick page: nothing for an empty query;
   * otherwise the first five matching tracks and the first five matching albums.
   */
  function SearchResults(query: string, tracks: seq<Track>, albums: seq<Album>): (r: PickResults)
    ensures query == "" ==> r == PickResults([], [])
    ensures |r.tracks| <= PickLimit && |r.albums| <= PickLimit
    ensures forall t :: t in r.tracks ==> t in tracks && TrackFound(query, t)
    ensures forall a :: a in r.albums ==> a in albums && AlbumFound(query, a)
    ensures query != "" ==> r.tracks <= PickTracks(query, tracks) && r.albums <= PickAlbums(query, albums)
    ensures query != "" && |r.tracks| < PickLimit ==> forall t :: t in tracks && TrackFound(query, t) ==> t in r.tracks
    ensures query != "" && |r.albums| < PickLimit ==> forall a :: a in albums && AlbumFound(query, a) ==> a in r.albums
  {
    if query == "" then PickResults([], [])
    else
      var ts := PickTracks(query, tracks);
      var al := PickAlbums(query, albums);
      assert forall t :: t in Take(ts, PickLimit) ==> t in ts;
      assert forall a :: a in Take(al, PickLimit) ==> a in al;
      PickResults(Take(ts, PickLimit), Take(al, PickLimit))
  }

  /** The detail dialog's artist line: the request's artist, then the additional main artists. */
  function AllMainArtists(r: ReleaseRequest): (s: seq<string>)
    ensures |s| == |r.additionalMainArtists| + 1 && s[0] == r.artistName
    ensures forall i :: 0 <= i < |r.additionalMainArtists| ==> s[i + 1] == r.additionalMainArtists[i]
  {
    [r.artistName] + r.additionalMainArtists
  }

  function TrackDuration(t: DistributionTrack): real {
    t.duration
  }

  /** The dialog header's total length: the sum of the track durations. */
  function TotalDuration(r: ReleaseRequest): real {
    SumReal(r.tracks, TrackDuration)
  }

  /** With no negative duration, the total is at least every track's duration. */
  lemma {:induction false} DurationBound(ts: seq<DistributionTrack>)
    requires forall i :: 0 <= i < |ts| ==> ts[i].duration >= 0.0
    ensures SumReal(ts, TrackDuration) >= 0.0
    ensures forall i :: 0 <= i < |ts| ==> ts[i].duration <= SumReal(ts, TrackDuration)
  {
    if |ts| > 0 {
      DurationBound(ts[1..]);
      assert forall i :: 1 <= i < |ts| ==> ts[i] == ts[1..][i - 1];
    }
  }

  /** The total of a release is the sum of its first track and the rest. */
  lemma TotalDurationSplit(r: ReleaseRequest)
    requires |r.tracks| > 0
    ensures TotalDuration(r) == r.tracks[0].duration + TotalDuration(r.(tracks := r.tracks[1..]))
  {
  }

  /** The code shown for a track: the generated HUEQ, else the entered one, else "---". */
  function ShownHueq(t: DistributionTrack): (s: string)
    ensures s != ""
    ensures Truthy(t.generatedHueq) ==> s == t.generatedHueq.value
    ensures !Truthy(t.generatedHueq) && Truthy(t.existingHueq) ==> s == t.existingHueq.value
    ensures !Truthy(t.generatedHueq) && !Truthy(t.existingHueq) ==> s == "---"
    ensures s == "---" || Some(s) == t.generatedHueq || Some(s) == t.existingHueq
  {
    if Truthy(t.generatedHueq) then t.generatedHueq.value
    else if Truthy(t.existingHueq) then t.existingHueq.value
    else "---"
  }

  class LegacyWizard {
    var step: int
    var title: string
    var releaseType: ReleaseType
    var genre: string
    var recordLabel: string
    var covers: seq<string>
    var mainArtists: seq<string>
    const editor: DraftEditor
    var date: string
    var time: string
    var message: string
    var view: HubView

    /** The wizard's initial state. */
    constructor ()
      ensures Form() == DistForm(1, "", Single, "Pop", "", [], [], [], "", "00:00", "")
      ensures editor.artistInputs == map[] && fresh(editor)
      ensures view == AuthView
    {
      step := 1;
      title := "";
      releaseType := Single;
      genre := "Pop";
      recordLabel := "";
      covers := [];
      mainArtists := [];
      editor := new DraftEditor();
      date := "";
      time := "00:00";
      message := "";
      view := AuthView;
    }

    function Form(): DistForm
      reads this, editor
    {
      DistForm(step, title, releaseType, genre, recordLabel, covers, mainArtists, editor.tracks, date, time, message)
    }

    /**
     * `handleNextStep`: one step further when the current step's check passes;
     * otherwise the step stays and `notice` is the error shown.
     */
    method NextStep() returns (notice: Option<string>)
      modifies this`step
      ensures notice == StepCheck(old(Form()))
      ensures step == if notice.None? then old(step) + 1 else old(step)
    {
      if step == 1 {
        if title == "" || genre == "" || |covers| == 0 {
          return Some(ReleaseWizard.MissingFields);
        }
      }
      if step == 2 {
        if |editor.tracks| == 0 {
          return Some(ReleaseWizard.MissingTracks);
        }
      }
      step := step + 1;
      notice := None;
    }

    /** The payload `handleSubmitRelease` sends once a date and a time are set. */
    method BuildPayload(currentArtistName: Option<string>, toIso: string -> string) returns (p: ReleaseWizard.Payload)
      requires date != "" && time != ""
      ensures SubmitPayload(Form(), currentArtistName, toIso) == Some(p)
    {
      var sentLabel := if recordLabel != "" then recordLabel
                       else if Truthy(currentArtistName) then currentArtistName.value
                       else "";
      p := ReleaseWizard.Payload(title, releaseType, genre, sentLabel, covers, mainArtists, editor.tracks,
                                 toIso(date + "T" + time + ":00+03:00"), message);
    }

    /**
     * `handleSubmitRelease`: without a date and time nothing changes and the
     * date error is shown; otherwise the payload is sent, the dashboard is shown
     * and the form is reset to step 1 with no title, tracks, covers, message,
     * main artists or tag inputs. Type, genre, label, date and time are kept.
     */
    method SubmitRelease(currentArtistName: Option<string>, toIso: string -> string)
      returns (sent: Option<ReleaseWizard.Payload>, notice: string)
      modifies this`step, this`title, this`covers, this`message, this`mainArtists, this`view,
               editor`tracks, editor`artistInputs
      ensures sent == SubmitPayload(old(Form()), currentArtistName, toIso)
      ensures notice == if sent.None? then ReleaseWizard.MissingDate else Submitted
      ensures sent.None? ==> Form() == old(Form()) && view == old(view) && editor.artistInputs == old(editor.artistInputs)
      ensures releaseType == old(releaseType) && genre == old(genre) && recordLabel == old(recordLabel)
      ensures date == old(date) && time == old(time)
      ensures sent.Some? ==>
        view == ArtistDash && step == 1 && title == "" && editor.tracks == [] && covers == []
        && message == "" && mainArtists == [] && editor.artistInputs == map[]
    {
      if date == "" || time == "" {
        return None, ReleaseWizard.MissingDate;
      }
      var payload := BuildPayload(currentArtistName, toIso);
      sent := Some(payload);
      notice := Submitted;
      view := ArtistDash;
      step := 1;
      title := "";
      editor.Clear();
      covers := [];
      message := "";
      mainArtists := [];
    }
  }
}
