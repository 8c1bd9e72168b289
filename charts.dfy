/**
 * `[...xs].sort((a, b) => key(b) - key(a)).slice(0, n)`: the `n` entries with
 * the largest keys, largest first, taken from a sorted copy so that the input
 * list itself keeps its order. The charts and an artist's popular tracks are
 * this ranking on plays.
 */
module Charts {
  import opened Seqs
  import opened Types

  /** Past position `k` of a list sorted by descending key, no key exceeds one before `k`. */
  lemma TopOfSorted<T>(s: seq<T>, k: nat, key: T -> int)
    requires SortedDesc(s, key) && k <= |s|
    ensures multiset(s[..k]) <= multiset(s)
    ensures forall x, c :: x in multiset(s) - multiset(s[..k]) && c in s[..k] ==> key(c) >= key(x)
  {
    assert s == s[..k] + s[k..];
    assert multiset(s) == multiset(s[..k]) + multiset(s[k..]);
    forall x, c | x in multiset(s) - multiset(s[..k]) && c in s[..k]
      ensures key(c) >= key(x)
    {
      assert x in multiset(s[k..]);
      assert x in s[k..];
      var j :| 0 <= j < |s[k..]| && s[k..][j] == x;
      var i :| 0 <= i < k && s[..k][i] == c;
      assert s[i] == c && s[k + j] == x;
    }
  }

  /** The first `n` entries of the descending sort, as a ranking. */
  function Top<T>(s: seq<T>, n: nat, key: T -> int): (r: seq<T>)
    ensures |r| == if n <= |s| then n else |s|
    ensures multiset(r) <= multiset(s)
    ensures forall x :: x in r ==> x in s
    ensures SortedDesc(r, key)
    ensures forall x, c :: x in multiset(s) - multiset(r) && c in r ==> key(c) >= key(x)
  {
    var sorted := SortDesc(s, key);
    var r := Take(sorted, n);
    assert r == sorted[..|r|];
    TopOfSorted(sorted, |r|, key);
    assert forall x :: x in r ==> x in multiset(r);
    r
  }

  /** Cutting a ranking shorter gives the shorter ranking. */
  lemma TopPrefix<T>(s: seq<T>, m: nat, n: nat, key: T -> int)
    requires n <= m
    ensures Take(Top(s, m, key), n) == Top(s, n, key)
  {
    var sorted := SortDesc(s, key);
    assert Top(s, m, key) == Take(sorted, m);
    assert Top(s, n, key) == Take(sorted, n);
  }

  const ChartSize: nat := 25

  /**
   * `chartTracks` / `allCharts`: at most 25 tracks of the catalogue, most played
   * first, and no track left out has more plays than one in the chart.
   */
  function TopCharts(tracks: seq<Track>): (r: seq<Track>)
    ensures |r| == if |tracks| < ChartSize then |tracks| else ChartSize
    ensures multiset(r) <= multiset(tracks)
    ensures forall t :: t in r ==> t in tracks
    ensures SortedDesc(r, Plays)
    ensures forall t, c :: t in multiset(tracks) - multiset(r) && c in r ==> c.plays >= t.plays
  {
    Top(tracks, ChartSize, Plays)
  }
}
