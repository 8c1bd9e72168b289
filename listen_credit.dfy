/**
 * The listen-credit logic of the store: `handleTimeUpdate` accumulates small
 * forward steps of the audio position, and once more than 30 seconds have been
 * heard `handleListenCount` adds a random number of plays to the track, unless
 * the same track was credited less than one track duration ago.
 */
module ListenCredit {
  import opened Seqs
  import opened Types

  /** Steps of the audio position at or above this many seconds are treated as seeks. */
  const MaxStep: real := 1.5

  /** Seconds of listening after which a listen is credited. */
  const CreditAfter: real := 30.0

  /**
   * `cumulativeTimeRef`, `lastTimeRef` and `hasCountedListen`: the listening
   * session of the current track.
   */
  datatype Session = Session(cumulative: real, last: real, counted: bool)

  /** The session the reset effect installs whenever the current track changes. */
  const Fresh: Session := Session(0.0, 0.0, false)

  /** The accumulation of `handleTimeUpdate` for the audio position `now`. */
  function Tick(s: Session, now: real): (r: Session)
    ensures r.last == now && r.counted == s.counted
    ensures s.cumulative <= r.cumulative < s.cumulative + MaxStep
    ensures (now <= s.last || now - s.last >= MaxStep) ==> r.cumulative == s.cumulative
    ensures 0.0 < now - s.last < MaxStep ==> r.cumulative == s.cumulative + (now - s.last)
  {
    var diff := now - s.last;
    Session(if 0.0 < diff < MaxStep then s.cumulative + diff else s.cumulative, now, s.counted)
  }

  /** The condition under which `handleTimeUpdate` calls `handleListenCount`. */
  predicate ShouldCredit(s: Session, hasCurrent: bool) {
    s.cumulative > CreditAfter && !s.counted && hasCurrent
  }

  /**
   * One `timeupdate` event: the accumulation and, when the condition holds,
   * `handleListenCount`, which always marks the session counted. The flag says
   * whether the credit was attempted.
   */
  function Step(s: Session, now: real, hasCurrent: bool): (r: (Session, bool))
    ensures r.1 <==> ShouldCredit(Tick(s, now), hasCurrent)
    ensures r.0.counted == (s.counted || r.1)
    ensures r.0.cumulative == Tick(s, now).cumulative && r.0.last == now
  {
    var t := Tick(s, now);
    if ShouldCredit(t, hasCurrent) then (t.(counted := true), true) else (t, false)
  }

  /** A run of `timeupdate` events at the given positions, with the number of credits attempted. */
  function Run(s: Session, samples: seq<real>, hasCurrent: bool): (Session, nat)
    decreases |samples|
  {
    if |samples| == 0 then (s, 0)
    else
      var (t, c) := Step(s, samples[0], hasCurrent);
      var (u, n) := Run(t, samples[1..], hasCurrent);
      (u, n + if c then 1 else 0)
  }

  /**
   * However the position moves, one track assignment is credited at most once,
   * and not at all once its session is counted.
   */
  lemma {:induction false} AtMostOneCredit(s: Session, samples: seq<real>, hasCurrent: bool)
    ensures Run(s, samples, hasCurrent).1 <= if s.counted then 0 else 1
    ensures Run(s, samples, hasCurrent).0.counted == (s.counted || Run(s, samples, hasCurrent).1 == 1)
    decreases |samples|
  {
    if |samples| > 0 {
      var (t, c) := Step(s, samples[0], hasCurrent);
      AtMostOneCredit(t, samples[1..], hasCurrent);
    }
  }

  /**
   * The heard time never decreases, and grows by less than 1.5 seconds per
   * event; a credit implies more than 30 seconds were heard.
   */
  lemma {:induction false} RunBounds(s: Session, samples: seq<real>, hasCurrent: bool)
    ensures s.cumulative <= Run(s, samples, hasCurrent).0.cumulative
    ensures Run(s, samples, hasCurrent).0.cumulative <= s.cumulative + MaxStep * |samples| as real
    ensures Run(s, samples, hasCurrent).1 > 0 ==> Run(s, samples, hasCurrent).0.cumulative > CreditAfter
    decreases |samples|
  {
    if |samples| > 0 {
      var (t, c) := Step(s, samples[0], hasCurrent);
      RunBounds(t, samples[1..], hasCurrent);
    }
  }

  /** From a fresh session a credit needs more than 20 position updates. */
  lemma CreditNeedsTwentyOneUpdates(samples: seq<real>, hasCurrent: bool)
    requires Run(Fresh, samples, hasCurrent).1 > 0
    ensures |samples| > 20
  {
    RunBounds(Fresh, samples, hasCurrent);
  }

  /** `StorageService.load('last_listen_' + id, 0)`: the time of the last credit, or 0. */
  function LastCredit(lastListenAt: map<string, int>, id: string): int {
    if id in lastListenAt then lastListenAt[id] else 0
  }

  /** `now - lastListenTime > track.duration * 1000`, clocks in milliseconds. */
  predicate CooldownElapsed(clockMs: int, lastMs: int, duration: real) {
    (clockMs - lastMs) as real > duration * 1000.0
  }

  /** `Math.floor(100 + Math.random() * 9900)`. */
  function AddedPlays(rand: real): (n: nat)
    requires 0.0 <= rand < 1.0
    ensures 100 <= n <= 9999
  {
    assert 100.0 <= 100.0 + rand * 9900.0 < 10000.0;
    (100.0 + rand * 9900.0).Floor
  }

  /** The `setTracks` update: `added` more plays on the tracks carrying `id`. */
  function CreditPlays(ts: seq<Track>, id: string, added: nat): (r: seq<Track>)
    ensures |r| == |ts|
    ensures forall i :: 0 <= i < |ts| ==> r[i].(plays := ts[i].plays) == ts[i]
    ensures forall i :: 0 <= i < |ts| && ts[i].id != id ==> r[i] == ts[i]
    ensures forall i :: 0 <= i < |ts| && ts[i].id == id ==> r[i].plays == ts[i].plays + added
  {
    seq(|ts|, i requires 0 <= i < |ts| => if ts[i].id == id then ts[i].(plays := ts[i].plays + added) else ts[i])
  }

  /** The number of tracks carrying `id`. */
  function CountId(ts: seq<Track>, id: string): nat {
    if |ts| == 0 then 0 else (if ts[0].id == id then 1 else 0) + CountId(ts[1..], id)
  }

  /** A credit raises the catalogue's total plays by `added` for each track carrying the id. */
  lemma {:induction false} CreditPlaysSum(ts: seq<Track>, id: string, added: nat)
    ensures Sum(CreditPlays(ts, id, added), Plays) == Sum(ts, Plays) + added * CountId(ts, id)
    decreases |ts|
  {
    if |ts| > 0 {
      assert CreditPlays(ts, id, added)[1..] == CreditPlays(ts[1..], id, added);
      CreditPlaysSum(ts[1..], id, added);
    }
  }

  /** The catalogue and the `last_listen_<id>` entries. */
  datatype Ledger = Ledger(tracks: seq<Track>, lastListenAt: map<string, int>)

  /** `handleListenCount` on the catalogue and the stored credit times. */
  function ListenCount(l: Ledger, track: Track, clockMs: int, rand: real): (r: Ledger)
    requires 0.0 <= rand < 1.0
    ensures !CooldownElapsed(clockMs, LastCredit(l.lastListenAt, track.id), track.duration) ==> r == l
    ensures CooldownElapsed(clockMs, LastCredit(l.lastListenAt, track.id), track.duration) ==>
      r.lastListenAt == l.lastListenAt[track.id := clockMs]
      && exists n :: 100 <= n <= 9999 && r.tracks == CreditPlays(l.tracks, track.id, n)
  {
    if CooldownElapsed(clockMs, LastCredit(l.lastListenAt, track.id), track.duration) then
      var n := AddedPlays(rand);
      Ledger(CreditPlays(l.tracks, track.id, n), l.lastListenAt[track.id := clockMs])
    else l
  }

  /**
   * The cooldown: once a track has been credited, another credit within one
   * track duration (of a track with non-negative duration) changes nothing.
   */
  lemma CooldownBlocksRecredit(l: Ledger, track: Track, c1: int, c2: int, r1: real, r2: real)
    requires 0.0 <= r1 < 1.0 && 0.0 <= r2 < 1.0 && 0.0 <= track.duration
    requires CooldownElapsed(c1, LastCredit(l.lastListenAt, track.id), track.duration)
    requires (c2 - c1) as real <= track.duration * 1000.0
    ensures var l1 := ListenCount(l, track, c1, r1);
      ListenCount(l1, track, c2, r2) == l1
  {
  }
}
