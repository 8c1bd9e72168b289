/**
 * `getArtistStats`: per-artist play totals over the catalogue, the global rank
 * of an artist in descending total order (999 when the artist has no track),
 * and the derived monthly listeners.
 */
module ArtistStats {
  import opened Seqs
  import opened Types

  /** The artist column of the catalogue, in catalogue order. */
  function ArtistsOf(ts: seq<Track>): (r: seq<string>)
    ensures |r| == |ts|
    ensures forall i :: 0 <= i < |ts| ==> r[i] == ts[i].artist
  {
    seq(|ts|, i requires 0 <= i < |ts| => ts[i].artist)
  }

  /**
   * `artistPlayMap[artist]` after the forEach has visited every track: the
   * plays of the tracks whose artist is `artist`, accumulated in order.
   */
  function Total(ts: seq<Track>, artist: string): nat {
    if |ts| == 0 then 0
    else Total(ts[..|ts| - 1], artist) + (if ts[|ts| - 1].artist == artist then ts[|ts| - 1].plays else 0)
  }

  /** An artist without tracks has total 0 (`artistPlayMap[name] || 0`). */
  lemma {:induction false} TotalAbsent(ts: seq<Track>, artist: string)
    requires artist !in ArtistsOf(ts)
    ensures Total(ts, artist) == 0
  {
    if |ts| > 0 {
      var init := ts[..|ts| - 1];
      assert forall i :: 0 <= i < |init| ==> ArtistsOf(init)[i] == ArtistsOf(ts)[i];
      assert artist !in ArtistsOf(init);
      TotalAbsent(init, artist);
      assert ArtistsOf(ts)[|ts| - 1] == ts[|ts| - 1].artist;
    }
  }

  /** The filter of the artist page: tracks whose artist is `artist`. */
  function ByArtist(artist: string): Track -> bool {
    (t: Track) => t.artist == artist
  }

  /** The total equals the sum of plays over the artist's tracks, as the artist page computes it. */
  lemma {:induction false} TotalIsFilterSum(ts: seq<Track>, artist: string)
    ensures Total(ts, artist) == Sum(Filter(ts, ByArtist(artist)), Plays)
  {
    if |ts| > 0 {
      var init := ts[..|ts| - 1];
      var last := ts[|ts| - 1];
      assert ts == init + [last];
      TotalIsFilterSum(init, artist);
      FilterAppend(init, [last], ByArtist(artist));
      SumAppend(Filter(init, ByArtist(artist)), Filter([last], ByArtist(artist)), Plays);
      assert Filter([last], ByArtist(artist)) == if last.artist == artist then [last] else [];
    }
  }

  /** The keys of `artistPlayMap` in insertion order: each artist's first appearance. */
  function Order(ts: seq<Track>): (r: seq<string>)
    ensures NoDup(r)
    ensures forall a :: a in r <==> a in ArtistsOf(ts)
  {
    Dedup(ArtistsOf(ts))
  }

  /**
   * One more track visited: its plays are added to its artist's total, and
   * the artist joins the key order unless already there.
   */
  lemma PrefixStep(ts: seq<Track>, i: int)
    requires 0 <= i < |ts|
    ensures forall a :: Total(ts[..i + 1], a) == Total(ts[..i], a) + (if ts[i].artist == a then ts[i].plays else 0)
    ensures Order(ts[..i + 1]) == if ts[i].artist in Order(ts[..i]) then Order(ts[..i]) else Order(ts[..i]) + [ts[i].artist]
    ensures ts[i].artist !in Order(ts[..i]) ==> Total(ts[..i], ts[i].artist) == 0
  {
    assert ts[..i + 1][..i] == ts[..i];
    assert ArtistsOf(ts[..i + 1])[..i] == ArtistsOf(ts[..i]);
    if ts[i].artist !in Order(ts[..i]) {
      TotalAbsent(ts[..i], ts[i].artist);
    }
  }

  /** One `[name, total]` pair of `Object.entries(artistPlayMap)`. */
  datatype Entry = Entry(name: string, total: nat)

  function EntryTotal(e: Entry): int {
    e.total
  }

  /** `Object.entries(artistPlayMap)`. */
  function Entries(ts: seq<Track>): (r: seq<Entry>)
    ensures |r| == |Order(ts)|
    ensures forall k :: 0 <= k < |r| ==> r[k] == Entry(Order(ts)[k], Total(ts, Order(ts)[k]))
  {
    var order := Order(ts);
    seq(|order|, k requires 0 <= k < |order| => Entry(order[k], Total(ts, order[k])))
  }

  /** `sortedArtists`: the entries in non-increasing total order. */
  function Ranked(ts: seq<Track>): (r: seq<Entry>)
    ensures multiset(r) == multiset(Entries(ts))
    ensures |r| == |Order(ts)|
    ensures SortedDesc(r, EntryTotal)
  {
    SortDesc(Entries(ts), EntryTotal)
  }

  /** `findIndex(([n]) => n === name)`. */
  function FindName(es: seq<Entry>, name: string): (k: int)
    ensures -1 <= k < |es|
    ensures k == -1 <==> forall i :: 0 <= i < |es| ==> es[i].name != name
    ensures 0 <= k ==> (es[k].name == name && forall i :: 0 <= i < k ==> es[i].name != name)
  {
    if |es| == 0 then -1
    else if es[0].name == name then 0
    else
      var k := FindName(es[1..], name);
      assert forall i :: 1 <= i < |es| ==> es[i] == es[1..][i - 1];
      if k == -1 then -1 else k + 1
  }

  const UnrankedRank: nat := 999

  /** `globalRank`: the 1-based position in the ranking, or 999. */
  function Rank(ts: seq<Track>, name: string): nat {
    var k := FindName(Ranked(ts), name);
    if k == -1 then UnrankedRank else k + 1
  }

  /** `Math.floor(totalPlays * 0.45)`, on exact numbers. */
  function MonthlyPlays(ts: seq<Track>, name: string): nat {
    Total(ts, name) * 45 / 100
  }

  datatype Stats = Stats(monthlyPlays: nat, globalRank: nat)

  function GetArtistStats(ts: seq<Track>, name: string): Stats {
    Stats(MonthlyPlays(ts, name), Rank(ts, name))
  }

  /** Every ranked entry is an artist of the catalogue paired with its own total. */
  lemma RankedEntry(ts: seq<Track>, i: int)
    requires 0 <= i < |Ranked(ts)|
    ensures Ranked(ts)[i].name in Order(ts)
    ensures Ranked(ts)[i].total == Total(ts, Ranked(ts)[i].name)
  {
    var e := Ranked(ts)[i];
    assert e in multiset(Ranked(ts));
    assert e in Entries(ts);
    var k :| 0 <= k < |Entries(ts)| && Entries(ts)[k] == e;
  }

  /** Every artist of the catalogue has an entry in the ranking. */
  lemma RankedHas(ts: seq<Track>, name: string)
    requires name in Order(ts)
    ensures FindName(Ranked(ts), name) != -1
  {
    var k :| 0 <= k < |Order(ts)| && Order(ts)[k] == name;
    var e := Entries(ts)[k];
    assert e in multiset(Entries(ts));
    assert e in Ranked(ts);
  }

  /** An artist with no track in the catalogue is ranked 999. */
  lemma RankOfAbsent(ts: seq<Track>, name: string)
    requires forall i :: 0 <= i < |ts| ==> ts[i].artist != name
    ensures Rank(ts, name) == UnrankedRank
    ensures MonthlyPlays(ts, name) == 0
  {
    assert name !in ArtistsOf(ts);
    forall i | 0 <= i < |Ranked(ts)|
      ensures Ranked(ts)[i].name != name
    {
      RankedEntry(ts, i);
    }
    TotalAbsent(ts, name);
  }

  /**
   * An artist with a track is ranked between 1 and the number of distinct
   * artists, and no two artists share a rank.
   */
  lemma RankBounds(ts: seq<Track>, a: string, b: string)
    requires exists i :: 0 <= i < |ts| && ts[i].artist == a
    requires exists i :: 0 <= i < |ts| && ts[i].artist == b
    ensures 1 <= Rank(ts, a) <= |Order(ts)|
    ensures a != b ==> Rank(ts, a) != Rank(ts, b)
  {
    var i :| 0 <= i < |ts| && ts[i].artist == a;
    var j :| 0 <= j < |ts| && ts[j].artist == b;
    assert ArtistsOf(ts)[i] == a && ArtistsOf(ts)[j] == b;
    RankedHas(ts, a);
    RankedHas(ts, b);
  }

  /** A strictly larger total never ranks lower. */
  lemma RankRespectsTotals(ts: seq<Track>, a: string, b: string)
    requires exists i :: 0 <= i < |ts| && ts[i].artist == a
    requires exists i :: 0 <= i < |ts| && ts[i].artist == b
    requires Total(ts, a) > Total(ts, b)
    ensures Rank(ts, a) < Rank(ts, b)
  {
    var i :| 0 <= i < |ts| && ts[i].artist == a;
    var j :| 0 <= j < |ts| && ts[j].artist == b;
    assert ArtistsOf(ts)[i] == a && ArtistsOf(ts)[j] == b;
    RankedHas(ts, a);
    RankedHas(ts, b);
    var r := Ranked(ts);
    var ia := FindName(r, a);
    var ib := FindName(r, b);
    RankedEntry(ts, ia);
    RankedEntry(ts, ib);
    SortedDescOrder(r, EntryTotal, ia, ib);
  }

  /** The integer division is exactly the floor of the total times 0.45. */
  lemma MonthlyPlaysIsFloor(ts: seq<Track>, name: string)
    ensures MonthlyPlays(ts, name) == (0.45 * Total(ts, name) as real).Floor
    ensures MonthlyPlays(ts, name) <= Total(ts, name)
  {
    var t := Total(ts, name);
    var m := t * 45 / 100;
    assert 100 * m <= 45 * t < 100 * m + 100;
    assert m as real <= 0.45 * t as real < m as real + 1.0;
  }
}
