/**
 * The track list of a release draft and the per-track artist inputs, with
 * the edits both artist hubs make to them (updateTrack, moveTrack,
 * addTrackArtist, removeTrackArtist, handleHueqBlur). Each edit copies the
 * list, assigns or swaps slots of the copy, and installs the copy.
 */
module DraftTracks {
  import opened Wrappers
  import opened Seqs
  import opened Types

  /** The fields the track rows edit through `updateTrack`, with the new value. */
  datatype Field =
    | TitleField(title: string)
    | ArtistField(artist: string)
    | ExistingHueqField(hueq: string)
    | ExplicitField(explicit: bool)
    | GenreField(genre: string)

  /** `{ ...t, [field]: val }`: the one field replaced, every other one kept. */
  function SetField(t: DistributionTrack, f: Field): (r: DistributionTrack)
    ensures f.TitleField? ==> r == t.(title := f.title)
    ensures f.ArtistField? ==> r == t.(artist := Some(f.artist))
    ensures f.ExistingHueqField? ==> r == t.(existingHueq := Some(f.hueq))
    ensures f.ExplicitField? ==> r == t.(explicit := f.explicit)
    ensures f.GenreField? ==> r == t.(genre := Some(f.genre))
  {
    match f
    case TitleField(v) => t.(title := v)
    case ArtistField(v) => t.(artist := Some(v))
    case ExistingHueqField(v) => t.(existingHueq := Some(v))
    case ExplicitField(v) => t.(explicit := v)
    case GenreField(v) => t.(genre := Some(v))
  }

  /** The list with the track at `idx` replaced by `t`, all others in place. */
  function ReplaceAt(ts: seq<DistributionTrack>, idx: nat, t: DistributionTrack): (r: seq<DistributionTrack>)
    requires idx < |ts|
    ensures |r| == |ts| && r[idx] == t
    ensures forall j :: 0 <= j < |ts| && j != idx ==> r[j] == ts[j]
  {
    ts[idx := t]
  }

  /** Setting a field to the value it already has changes nothing; setting it twice keeps the last value. */
  lemma SetFieldLaws(t: DistributionTrack, f: Field, g: Field)
    ensures f.TitleField? && t.title == f.title ==> SetField(t, f) == t
    ensures f.ExplicitField? && t.explicit == f.explicit ==> SetField(t, f) == t
    ensures f.TitleField? && g.TitleField? ==> SetField(SetField(t, f), g) == SetField(t, g)
    ensures f.ExistingHueqField? && g.ExistingHueqField? ==> SetField(SetField(t, f), g) == SetField(t, g)
  {
  }

  datatype Direction = Up | Down

  /** The order after `moveTrack(index, direction)`: swapped with a neighbour when there is one that way. */
  function Moved(ts: seq<DistributionTrack>, index: nat, dir: Direction): (r: seq<DistributionTrack>)
    requires index < |ts|
    ensures |r| == |ts| && multiset(r) == multiset(ts)
    ensures dir == Up && index > 0 ==>
      r[index - 1] == ts[index] && r[index] == ts[index - 1]
      && forall j :: 0 <= j < |ts| && j != index && j != index - 1 ==> r[j] == ts[j]
    ensures dir == Down && index + 1 < |ts| ==>
      r[index + 1] == ts[index] && r[index] == ts[index + 1]
      && forall j :: 0 <= j < |ts| && j != index && j != index + 1 ==> r[j] == ts[j]
    ensures (dir == Up && index == 0) || (dir == Down && index + 1 == |ts|) ==> r == ts
  {
    if dir == Up && index > 0 then Swapped(ts, index, index - 1)
    else if dir == Down && index + 1 < |ts| then Swapped(ts, index, index + 1)
    else ts
  }

  /** `[s[i], s[j]] = [s[j], s[i]]`. */
  function Swapped(ts: seq<DistributionTrack>, i: nat, j: nat): (r: seq<DistributionTrack>)
    requires i < |ts| && j < |ts|
    ensures |r| == |ts| && r[i] == ts[j] && r[j] == ts[i]
    ensures forall k :: 0 <= k < |ts| && k != i && k != j ==> r[k] == ts[k]
    ensures multiset(r) == multiset(ts)
  {
    var r := ts[i := ts[j]][j := ts[i]];
    SwapMultiset(ts, i, j);
    r
  }

  lemma SwapMultiset(ts: seq<DistributionTrack>, i: nat, j: nat)
    requires i < |ts| && j < |ts|
    ensures multiset(ts[i := ts[j]][j := ts[i]]) == multiset(ts)
  {
    var once := ts[i := ts[j]];
    assert multiset(once) == multiset(ts) - multiset{ts[i]} + multiset{ts[j]};
    assert once[j] == (if i == j then ts[j] else ts[j]);
  }

  /** Swapping the same two slots twice restores the list. */
  lemma SwapTwice(ts: seq<DistributionTrack>, i: nat, j: nat)
    requires i < |ts| && j < |ts|
    ensures Swapped(Swapped(ts, i, j), j, i) == ts
  {
    var twice := Swapped(Swapped(ts, i, j), j, i);
    assert forall k :: 0 <= k < |ts| ==> twice[k] == ts[k];
  }

  /** Moving a track up and then down again restores the order. */
  lemma MoveUpThenDown(ts: seq<DistributionTrack>, index: nat)
    requires 0 < index < |ts|
    ensures Moved(Moved(ts, index, Up), index - 1, Down) == ts
  {
    var once := Swapped(ts, index, index - 1);
    assert Moved(ts, index, Up) == once;
    assert Moved(once, index - 1, Down) == Swapped(once, index - 1, index);
    SwapTwice(ts, index, index - 1);
  }

  /** Moving a track down and then up again restores the order. */
  lemma MoveDownThenUp(ts: seq<DistributionTrack>, index: nat)
    requires index + 1 < |ts|
    ensures Moved(Moved(ts, index, Down), index + 1, Up) == ts
  {
    var once := Swapped(ts, index, index + 1);
    assert Moved(ts, index, Down) == once;
    assert Moved(once, index + 1, Up) == Swapped(once, index + 1, index);
    SwapTwice(ts, index, index + 1);
  }

  /** `[...(t.mainArtists || []), name]`. */
  function WithArtist(t: DistributionTrack, name: string): (r: DistributionTrack)
    ensures r.mainArtists == t.mainArtists + [name]
    ensures r.(mainArtists := t.mainArtists) == t
  {
    t.(mainArtists := t.mainArtists + [name])
  }

  /** `(t.mainArtists || []).filter(a => a !== name)`. */
  function WithoutArtist(t: DistributionTrack, name: string): (r: DistributionTrack)
    ensures name !in r.mainArtists
    ensures forall a :: a != name ==> (a in r.mainArtists <==> a in t.mainArtists)
    ensures IsSubseq(r.mainArtists, t.mainArtists)
    ensures r.(mainArtists := t.mainArtists) == t
  {
    t.(mainArtists := RemoveAll(t.mainArtists, name))
  }

  /** Tagging a track with a new name and untagging it gives back the track. */
  lemma UntagUndoesTag(t: DistributionTrack, name: string)
    requires name !in t.mainArtists
    ensures WithoutArtist(WithArtist(t, name), name) == t
  {
    RemoveAllAfterAppend(t.mainArtists, name);
  }

  /**
   * A track filled from the catalogue track `existing` that carries the code:
   * title, explicit flag, featured artist (`""` when none), code, file, duration,
   * genre and main artists are taken; the track's own artist is kept.
   */
  function Autofilled(t: DistributionTrack, hueq: string, existing: Track): (r: DistributionTrack)
    ensures r.title == existing.title && r.explicit == existing.explicit
    ensures r.feat == Some(if Truthy(existing.feat) then existing.feat.value else "")
    ensures r.existingHueq == Some(hueq) && r.fileUrl == existing.url && r.duration == existing.duration
    ensures r.genre == Some(existing.genre) && r.mainArtists == existing.mainArtists
    ensures r.artist == t.artist && r.generatedHueq == t.generatedHueq
  {
    t.(title := existing.title,
       explicit := existing.explicit,
       feat := Some(if Truthy(existing.feat) then existing.feat.value else ""),
       existingHueq := Some(hueq),
       fileUrl := existing.url,
       duration := existing.duration,
       genre := Some(existing.genre),
       mainArtists := existing.mainArtists)
  }

  /**
   * The tracks after the code field loses focus with `hueq` in it: nothing for an
   * empty code, the autofill for a known one, and just the code otherwise.
   * `lookup` stands for the store's `getTrackByHueq`.
   */
  function AfterHueqBlur(ts: seq<DistributionTrack>, idx: nat, hueq: string,
                         lookup: string -> Option<Track>): (r: seq<DistributionTrack>)
    requires idx < |ts|
    ensures |r| == |ts|
    ensures forall j :: 0 <= j < |ts| && j != idx ==> r[j] == ts[j]
    ensures hueq == "" ==> r == ts
    ensures hueq != "" ==> r[idx].existingHueq == Some(hueq)
    ensures hueq != "" && lookup(hueq).None? ==> r[idx] == ts[idx].(existingHueq := Some(hueq))
    ensures hueq != "" && lookup(hueq).Some? ==> r[idx] == Autofilled(ts[idx], hueq, lookup(hueq).value)
  {
    if hueq == "" then ts
    else match lookup(hueq)
      case Some(existing) => ReplaceAt(ts, idx, Autofilled(ts[idx], hueq, existing))
      case None => ReplaceAt(ts, idx, SetField(ts[idx], ExistingHueqField(hueq)))
  }

  /** A code blurred twice fills the track the same way as once. */
  lemma HueqBlurIdempotent(ts: seq<DistributionTrack>, idx: nat, hueq: string, lookup: string -> Option<Track>)
    requires idx < |ts|
    ensures AfterHueqBlur(AfterHueqBlur(ts, idx, hueq, lookup), idx, hueq, lookup) == AfterHueqBlur(ts, idx, hueq, lookup)
  {
    var once := AfterHueqBlur(ts, idx, hueq, lookup);
    if hueq != "" {
      assert once[idx := AfterHueqBlur(once, idx, hueq, lookup)[idx]] == AfterHueqBlur(once, idx, hueq, lookup);
    }
  }

  /** The draft's tracks and the text of each track's artist-tag input. */
  class DraftEditor {
    var tracks: seq<DistributionTrack>
    var artistInputs: map<int, string>

    constructor ()
      ensures tracks == [] && artistInputs == map[]
    {
      tracks := [];
      artistInputs := map[];
    }

    /** A copy of the track list as an array, as `[...prev]` makes it. */
    method CopyTracks() returns (a: array<DistributionTrack>)
      ensures fresh(a) && a[..] == tracks
    {
      var prev := tracks;
      a := new DistributionTrack[|prev|](i requires 0 <= i < |prev| => prev[i]);
    }

    /** `updateTrack(idx, field, val)`. */
    method UpdateTrack(idx: nat, f: Field)
      requires idx < |tracks|
      modifies this`tracks
      ensures tracks == ReplaceAt(old(tracks), idx, SetField(old(tracks)[idx], f))
    {
      var newTracks := CopyTracks();
      newTracks[idx] := SetField(newTracks[idx], f);
      tracks := newTracks[..];
    }

    /** `moveTrack(index, direction)`. */
    method MoveTrack(index: nat, dir: Direction)
      requires index < |tracks|
      modifies this`tracks
      ensures tracks == Moved(old(tracks), index, dir)
    {
      if dir == Up && index > 0 {
        var newTracks := CopyTracks();
        newTracks[index], newTracks[index - 1] := newTracks[index - 1], newTracks[index];
        tracks := newTracks[..];
      } else if dir == Down && index + 1 < |tracks| {
        var newTracks := CopyTracks();
        newTracks[index], newTracks[index + 1] := newTracks[index + 1], newTracks[index];
        tracks := newTracks[..];
      }
    }

    /**
     * `addTrackArtist(trackIdx)`: nothing when the track's input is missing or
     * empty; otherwise its text is appended to the track's main artists and the
     * input (only that one) is cleared.
     */
    method AddTrackArtist(trackIdx: nat)
      requires trackIdx < |tracks|
      modifies this`tracks, this`artistInputs
      ensures trackIdx !in old(artistInputs) || old(artistInputs)[trackIdx] == "" ==>
        tracks == old(tracks) && artistInputs == old(artistInputs)
      ensures trackIdx in old(artistInputs) && old(artistInputs)[trackIdx] != "" ==>
        tracks == ReplaceAt(old(tracks), trackIdx, WithArtist(old(tracks)[trackIdx], old(artistInputs)[trackIdx]))
        && artistInputs == old(artistInputs)[trackIdx := ""]
    {
      if trackIdx !in artistInputs || artistInputs[trackIdx] == "" {
        return;
      }
      var name := artistInputs[trackIdx];
      var newTracks := CopyTracks();
      newTracks[trackIdx] := WithArtist(newTracks[trackIdx], name);
      tracks := newTracks[..];
      artistInputs := artistInputs[trackIdx := ""];
    }

    /** `removeTrackArtist(trackIdx, artistToRemove)`. */
    method RemoveTrackArtist(trackIdx: nat, artistToRemove: string)
      requires trackIdx < |tracks|
      modifies this`tracks
      ensures tracks == ReplaceAt(old(tracks), trackIdx, WithoutArtist(old(tracks)[trackIdx], artistToRemove))
    {
      var newTracks := CopyTracks();
      newTracks[trackIdx] := WithoutArtist(newTracks[trackIdx], artistToRemove);
      tracks := newTracks[..];
    }

    /** `handleHueqBlur(idx, hueq)`, the store's lookup passed in. */
    method HueqBlur(idx: nat, hueq: string, lookup: string -> Option<Track>)
      requires idx < |tracks|
      modifies this`tracks
      ensures tracks == AfterHueqBlur(old(tracks), idx, hueq, lookup)
    {
      if hueq == "" {
        return;
      }
      var existing := lookup(hueq);
      if existing.Some? {
        var newTracks := CopyTracks();
        newTracks[idx] := Autofilled(newTracks[idx], hueq, existing.value);
        tracks := newTracks[..];
      } else {
        UpdateTrack(idx, ExistingHueqField(hueq));
      }
    }

    /** `setDistTracks([])` and `setTrackArtistInputs({})` of a form reset. */
    method Clear()
      modifies this`tracks, this`artistInputs
      ensures tracks == [] && artistInputs == map[]
    {
      tracks := [];
      artistInputs := map[];
    }
  }
}
