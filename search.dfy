/**
 * The search page (pages/Search.tsx): the case-insensitive filter over title,
 * artist and album, and which of its three panels the page shows.
 */
module Search {
  import opened Seqs
  import opened Text
  import opened Types

  /** The filter's test: the lowered query occurs in the lowered title, artist or album. */
  function Matches(query: string): Track -> bool {
    (t: Track) =>
      Includes(Lower(t.title), Lower(query))
      || Includes(Lower(t.artist), Lower(query))
      || Includes(Lower(t.album), Lower(query))
  }

  /**
   * `filteredTracks`: the tracks, in catalogue order, in whose title, artist or
   * album the query occurs, ignoring case.
   */
  function FilteredTracks(tracks: seq<Track>, query: string): (r: seq<Track>)
    ensures IsSubseq(r, tracks)
    ensures forall t :: t in r <==>
      t in tracks
      && (IsSubstring(Lower(query), Lower(t.title))
          || IsSubstring(Lower(query), Lower(t.artist))
          || IsSubstring(Lower(query), Lower(t.album)))
  {
    FilterIsSubseq(tracks, Matches(query));
    forall t: Track
      ensures Matches(query)(t) <==>
        IsSubstring(Lower(query), Lower(t.title))
        || IsSubstring(Lower(query), Lower(t.artist))
        || IsSubstring(Lower(query), Lower(t.album))
    {
      IncludesMeansSubstring(Lower(t.title), Lower(query));
      IncludesMeansSubstring(Lower(t.artist), Lower(query));
      IncludesMeansSubstring(Lower(t.album), Lower(query));
    }
    Filter(tracks, Matches(query))
  }

  /** The empty query keeps every track, in order. */
  lemma EmptyQueryKeepsAll(tracks: seq<Track>)
    ensures FilteredTracks(tracks, "") == tracks
  {
    forall i | 0 <= i < |tracks|
      ensures Matches("")(tracks[i])
    {
      EmptyIncluded(Lower(tracks[i].title));
    }
    FilterAll(tracks, Matches(""));
  }

  /** The panel below the search box. */
  datatype Panel = Categories | NoResults(query: string) | Songs(tracks: seq<Track>)

  /** Categories for an empty query, else the songs found, or the no-results line. */
  function ShownPanel(tracks: seq<Track>, query: string): Panel {
    if query == "" then Categories
    else
      var found := FilteredTracks(tracks, query);
      if |found| == 0 then NoResults(query) else Songs(found)
  }

  /**
   * Results appear only for a non-empty query; "no results" shows exactly when
   * the query is non-empty and no track matches it, and songs are listed exactly
   * when some track does.
   */
  lemma PanelChoice(tracks: seq<Track>, query: string)
    ensures ShownPanel(tracks, query).Categories? <==> query == ""
    ensures ShownPanel(tracks, query).NoResults? <==> query != "" && FilteredTracks(tracks, query) == []
    ensures ShownPanel(tracks, query).Songs? <==> query != "" && FilteredTracks(tracks, query) != []
    ensures ShownPanel(tracks, query).Songs? ==> ShownPanel(tracks, query).tracks == FilteredTracks(tracks, query)
  {
  }
}
