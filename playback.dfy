/**
 * Track selection of the store's player: the recently-played list that
 * `playTrack` maintains, the queue the skip buttons walk, and the choices of
 * `nextTrack` and `prevTrack`.
 */
module Playback {
  import opened Wrappers
  import opened Seqs
  import opened Types

  const RecentLimit: nat := 10

  /** Entries of `prev` whose id differs from `id`. */
  function OtherIds(prev: seq<Track>, id: string): seq<Track> {
    Filter(prev, (t: Track) => t.id != id)
  }

  /** `[track, ...prev.filter(t => t.id !== track.id)].slice(0, 10)`. */
  function Recent(prev: seq<Track>, track: Track): (r: seq<Track>)
    ensures 1 <= |r| <= RecentLimit && r[0] == track
    ensures forall i :: 1 <= i < |r| ==> r[i].id != track.id
    ensures r[1..] <= OtherIds(prev, track.id)
    ensures |r| == if |OtherIds(prev, track.id)| < RecentLimit then 1 + |OtherIds(prev, track.id)| else RecentLimit
  {
    var r := Take([track] + OtherIds(prev, track.id), RecentLimit);
    assert r[1..] == Take(OtherIds(prev, track.id), RecentLimit - 1);
    r
  }

  /** The entries after the head come from the previous list, in their old order. */
  lemma RecentKeepsOrder(prev: seq<Track>, track: Track)
    ensures IsSubseq(Recent(prev, track)[1..], prev)
  {
    var rest := Recent(prev, track)[1..];
    FilterIsSubseq(prev, (t: Track) => t.id != track.id);
    PrefixSubseq(rest, OtherIds(prev, track.id));
    SubseqTrans(rest, OtherIds(prev, track.id), prev);
  }

  lemma PrefixSubseq<T>(a: seq<T>, b: seq<T>)
    requires a <= b
    ensures IsSubseq(a, b)
    decreases |a|
  {
    if |a| > 0 {
      assert a[1..] <= b[1..];
      PrefixSubseq(a[1..], b[1..]);
    }
  }

  lemma SubseqTrans<T>(a: seq<T>, b: seq<T>, c: seq<T>)
    requires IsSubseq(a, b) && IsSubseq(b, c)
    ensures IsSubseq(a, c)
    decreases |c|
  {
    if |a| > 0 && |c| > 0 {
      if b[0] == c[0] {
        if a[0] == b[0] {
          SubseqTrans(a[1..], b[1..], c[1..]);
        } else {
          SubseqTrans(a, b[1..], c[1..]);
          SubseqOfTail(a, c);
        }
      } else {
        SubseqTrans(a, b, c[1..]);
        SubseqOfTail(a, c);
      }
    }
  }

  /** A track played twice in a row is listed once, at the head. */
  lemma RecentReplay(prev: seq<Track>, track: Track)
    ensures Recent(Recent(prev, track), track) == Recent(prev, track)
  {
    var r := Recent(prev, track);
    var again := Recent(r, track);
    assert r == [track] + r[1..];
    FilterAppend([track], r[1..], (t: Track) => t.id != track.id);
    FilterAll(r[1..], (t: Track) => t.id != track.id);
    assert OtherIds(r, track.id) == r[1..];
  }

  /** `getQueue`: the recently-played list inside the 'history' playlist, else the catalogue. */
  function GetQueue(view: ViewState, recentlyPlayed: seq<Track>, tracks: seq<Track>): seq<Track> {
    if view == PlaylistView("history") then recentlyPlayed else tracks
  }

  /** `queue.findIndex(t => t.id === currentTrack?.id)`: no current track matches nothing. */
  function IndexOfId(queue: seq<Track>, current: Option<Track>): (k: int)
    ensures -1 <= k < |queue|
    ensures k == -1 <==> current.None? || forall i :: 0 <= i < |queue| ==> queue[i].id != current.value.id
    ensures 0 <= k ==> (queue[k].id == current.value.id
      && forall i :: 0 <= i < k ==> queue[i].id != current.value.id)
  {
    match current
    case None => -1
    case Some(c) =>
      if |queue| == 0 then -1
      else if queue[0].id == c.id then 0
      else
        var k := IndexOfId(queue[1..], current);
        assert forall i :: 1 <= i < |queue| ==> queue[i] == queue[1..][i - 1];
        if k == -1 then -1 else k + 1
  }

  /** What a skip does: play a queue entry, stop, rewind the current track, or fail. */
  datatype Choice =
    | PlayAt(index: nat)
    | Stop
    | Restart
    | Fault   // the source reads an element of an empty queue and throws

  /** `Math.floor(rand * n)` for a random fraction `rand` in [0, 1). */
  function RandomIndex(rand: real, n: nat): (k: nat)
    requires 0.0 <= rand < 1.0 && n > 0
    ensures k < n
  {
    assert rand * n as real < n as real;
    (rand * n as real).Floor
  }

  /** `nextTrack`'s choice. */
  function NextChoice(queue: seq<Track>, current: Option<Track>, mode: PlayMode,
                      shuffle: bool, rand: real): (c: Choice)
    requires 0.0 <= rand < 1.0
    ensures c.PlayAt? ==> c.index < |queue|
    ensures c != Restart
    ensures c == Fault <==> |queue| == 0 && (shuffle || mode == Context)
    ensures !shuffle && 0 <= IndexOfId(queue, current) < |queue| - 1 ==>
      c == PlayAt(IndexOfId(queue, current) + 1)
    ensures !shuffle && |queue| > 0 && !(0 <= IndexOfId(queue, current) < |queue| - 1) ==>
      c == if mode == Context then PlayAt(0) else Stop
  {
    if shuffle then
      if |queue| == 0 then Fault else PlayAt(RandomIndex(rand, |queue|))
    else
      var idx := IndexOfId(queue, current);
      if idx != -1 && idx < |queue| - 1 then PlayAt(idx + 1)
      else if mode == Context then (if |queue| == 0 then Fault else PlayAt(0))
      else Stop
  }

  /** Seconds into a track after which "previous" rewinds instead of skipping. */
  const RestartThreshold: real := 3.0

  /** `prevTrack`'s choice, given the audio position in seconds. */
  function PrevChoice(queue: seq<Track>, current: Option<Track>, position: real): (c: Choice)
    ensures position > RestartThreshold <==> c == Restart
    ensures c.PlayAt? ==> c.index < |queue|
    ensures c == Fault <==> position <= RestartThreshold && |queue| == 0
    ensures position <= RestartThreshold && IndexOfId(queue, current) > 0 ==>
      c == PlayAt(IndexOfId(queue, current) - 1)
    ensures position <= RestartThreshold && |queue| > 0 && IndexOfId(queue, current) <= 0 ==>
      c == PlayAt(|queue| - 1)
  {
    if position > RestartThreshold then Restart
    else
      var idx := IndexOfId(queue, current);
      if idx > 0 then PlayAt(idx - 1)
      else if |queue| == 0 then Fault
      else PlayAt(|queue| - 1)
  }

  /** Queue entries carry distinct ids. */
  predicate DistinctIds(queue: seq<Track>) {
    forall i, j :: 0 <= i < j < |queue| ==> queue[i].id != queue[j].id
  }

  /** In a queue of distinct ids the current track's index is its position. */
  lemma IndexOfDistinct(queue: seq<Track>, i: int)
    requires DistinctIds(queue) && 0 <= i < |queue|
    ensures IndexOfId(queue, Some(queue[i])) == i
  {
  }

  /**
   * Skipping forward and then back (early in the track, without shuffle)
   * returns to the track one started from.
   */
  lemma NextThenPrev(queue: seq<Track>, i: int, mode: PlayMode, rand: real, position: real)
    requires DistinctIds(queue) && 0 <= i < |queue| - 1
    requires 0.0 <= rand < 1.0 && position <= RestartThreshold
    ensures NextChoice(queue, Some(queue[i]), mode, false, rand) == PlayAt(i + 1)
    ensures PrevChoice(queue, Some(queue[i + 1]), position) == PlayAt(i)
  {
    IndexOfDistinct(queue, i);
    IndexOfDistinct(queue, i + 1);
  }

  /** Skipping back and then forward returns to the track one started from. */
  lemma PrevThenNext(queue: seq<Track>, i: int, mode: PlayMode, rand: real, position: real)
    requires DistinctIds(queue) && 0 < i < |queue|
    requires 0.0 <= rand < 1.0 && position <= RestartThreshold
    ensures PrevChoice(queue, Some(queue[i]), position) == PlayAt(i - 1)
    ensures NextChoice(queue, Some(queue[i - 1]), mode, false, rand) == PlayAt(i)
  {
    IndexOfDistinct(queue, i);
    IndexOfDistinct(queue, i - 1);
  }
}
