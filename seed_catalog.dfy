/**
 * What the two seed-catalogue generators share: the constant lists, the
 * seeded pseudo-random fraction, the id and title strings, and the grouping
 * of the twenty tracks into four albums by `i % 4`.
 */
module SeedCatalog {
  import opened Text

  const Artists: seq<string> := ["The Algorithms", "Binary Beats", "Null Pointer", "Stack Overflow"]
  const Genres: seq<string> := ["Pop", "Indie Rock", "Hip-Hop", "Electronic", "Jazz"]
  const Labels: seq<string> := ["Huevify Records", "Algorithm Audio", "Binary Bass Inc.", "NullSet Music"]
  const SampleMp3: string := "https://www.soundhelix.com/examples/mp3/SoundHelix-Song-1.mp3"

  const TrackCount: nat := 20
  const AlbumCount: nat := 4

  /** `x - Math.floor(x)`: the fractional part, always in [0, 1). */
  function Frac(x: real): (f: real)
    ensures 0.0 <= f < 1.0
    ensures (x - f).Floor as real == x - f
  {
    x - x.Floor as real
  }

  /**
   * `seededRandom(seed)`. `Math.sin` is not modelled: `sinScaled(seed)` stands
   * for `Math.sin(seed) * 10000`, whatever value it has.
   */
  function SeededRandom(sinScaled: int -> real, seed: int): (r: real)
    ensures 0.0 <= r < 1.0
  {
    Frac(sinScaled(seed))
  }

  /** `180 + Math.floor(seededRandom(i) * 120)`: a whole number of seconds from 3:00 to 4:59. */
  function SeedDuration(sinScaled: int -> real, i: int): (d: real)
    ensures 180.0 <= d <= 299.0
    ensures d.Floor as real == d
  {
    var r := SeededRandom(sinScaled, i);
    assert 0.0 <= r * 120.0 < 120.0;
    (180 + (r * 120.0).Floor) as real
  }

  /** `Math.floor(seededRandom(i * 100) * 500000)`. */
  function SeedPlays(sinScaled: int -> real, i: int): (p: nat)
    ensures p <= 499999
  {
    var r := SeededRandom(sinScaled, i * 100);
    assert 0.0 <= r * 500000.0 < 500000.0;
    (r * 500000.0).Floor
  }

  function TrackId(i: nat): string {
    "t" + NatToString(i)
  }

  function TrackTitle(i: nat): string {
    "Track Number " + NatToString(i)
  }

  function AlbumId(k: nat): string {
    "a" + NatToString(k)
  }

  function AlbumTitle(k: nat): string {
    "Album " + NatToString(k)
  }

  /** Different numbers give different track ids and different album titles. */
  lemma NamesInjective(a: nat, b: nat)
    ensures TrackId(a) == TrackId(b) <==> a == b
    ensures AlbumTitle(a) == AlbumTitle(b) <==> a == b
  {
    NatToStringInjective(a, b);
    if TrackId(a) == TrackId(b) {
      assert TrackId(a)[1..] == NatToString(a);
      assert TrackId(b)[1..] == NatToString(b);
    }
    if AlbumTitle(a) == AlbumTitle(b) {
      assert AlbumTitle(a)[6..] == NatToString(a);
      assert AlbumTitle(b)[6..] == NatToString(b);
    }
  }

  /** The album number (1 to 4) that track `i` is grouped into: `(i % 4) + 1`. */
  function AlbumOf(i: nat): (k: nat)
    ensures 1 <= k <= AlbumCount
  {
    i % 4 + 1
  }

  /** The first track of album `k`: album 1 collects the multiples of 4. */
  function FirstMember(k: nat): nat {
    if k <= 1 then 4 else k - 1
  }

  /** How many of the tracks 1..n album `k` collects. */
  function MemberCount(k: nat, n: nat): nat {
    if n < FirstMember(k) then 0 else (n - FirstMember(k)) / 4 + 1
  }

  /** The ids of tracks 1..n grouped into album `k`: every fourth id from its first track on. */
  function Members(k: nat, n: nat): (r: seq<string>)
    ensures |r| == MemberCount(k, n)
  {
    seq(MemberCount(k, n), j requires 0 <= j => TrackId(FirstMember(k) + 4 * j))
  }

  /** Track `i` is listed by album `k` exactly when it is one of 1..n and `k` is its album. */
  lemma MembersHas(k: nat, n: nat, i: nat)
    requires 1 <= k <= AlbumCount
    ensures TrackId(i) in Members(k, n) <==> 1 <= i <= n && AlbumOf(i) == k
  {
    var f := FirstMember(k);
    if TrackId(i) in Members(k, n) {
      var j :| 0 <= j < |Members(k, n)| && Members(k, n)[j] == TrackId(i);
      NamesInjective(i, f + 4 * j);
    }
    if 1 <= i <= n && AlbumOf(i) == k {
      var j := (i - f) / 4;
      assert i == f + 4 * j;
      assert Members(k, n)[j] == TrackId(i);
    }
  }

  /** Looking at one more track appends its id to its own album and to no other. */
  lemma MembersStep(k: nat, n: nat)
    requires 1 <= k <= AlbumCount && n > 0
    ensures Members(k, n) == Members(k, n - 1) + (if AlbumOf(n) == k then [TrackId(n)] else [])
  {
    var f := FirstMember(k);
    if AlbumOf(n) == k {
      assert n >= f && (n - f) % 4 == 0;
      assert n == f + 4 * MemberCount(k, n - 1);
    } else {
      assert MemberCount(k, n) == MemberCount(k, n - 1);
    }
  }

  /**
   * The twenty tracks are split into four albums of five: each track is listed by
   * exactly one album, every listed id is a track id, and album `k` lists its
   * tracks in ascending order (album 1: t4, t8, t12, t16, t20).
   */
  lemma Partition()
    ensures forall i, k :: 1 <= i <= TrackCount && 1 <= k <= AlbumCount ==>
      (TrackId(i) in Members(k, TrackCount) <==> k == AlbumOf(i))
    ensures forall k, x :: 1 <= k <= AlbumCount && x in Members(k, TrackCount) ==>
      exists i :: 1 <= i <= TrackCount && x == TrackId(i)
    ensures forall k :: 1 <= k <= AlbumCount ==> |Members(k, TrackCount)| == 5
  {
    forall i, k | 1 <= i <= TrackCount && 1 <= k <= AlbumCount
      ensures TrackId(i) in Members(k, TrackCount) <==> k == AlbumOf(i)
    {
      MembersHas(k, TrackCount, i);
    }
    forall k, x | 1 <= k <= AlbumCount && x in Members(k, TrackCount)
      ensures exists i :: 1 <= i <= TrackCount && x == TrackId(i)
    {
      var j :| 0 <= j < |Members(k, TrackCount)| && Members(k, TrackCount)[j] == x;
      assert 1 <= FirstMember(k) + 4 * j <= TrackCount;
    }
  }
}
