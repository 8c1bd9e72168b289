/**
 * The derivations of the older home page (pages/Home.tsx): the top-25 chart
 * and its five-entry preview.
 */
module LegacyHome {
  import opened Seqs
  import opened Types
  import opened Charts

  const PreviewSize: nat := 5

  /** `allCharts.slice(0, 5)`. */
  function PreviewCharts(tracks: seq<Track>): seq<Track> {
    Take(TopCharts(tracks), PreviewSize)
  }

  /**
   * The preview is the head of the chart: its first five entries (all of them
   * when it is shorter), drawn from the catalogue, most played first, and no
   * track outside the preview has more plays than one inside it.
   */
  lemma PreviewIsChartHead(tracks: seq<Track>)
    ensures var p := PreviewCharts(tracks);
      && p <= TopCharts(tracks)
      && |p| == (if |tracks| < PreviewSize then |tracks| else PreviewSize)
      && multiset(p) <= multiset(tracks)
      && (forall t :: t in p ==> t in tracks)
      && SortedDesc(p, Plays)
      && (forall t, c :: t in multiset(tracks) - multiset(p) && c in p ==> c.plays >= t.plays)
  {
    TopPrefix(tracks, ChartSize, PreviewSize, Plays);
  }
}
