/**
 * The derivations of the home page (src/pages/Home.tsx): the daily chart
 * preview, the latest releases, the greeting and a track's artist line.
 */
module Home {
  import opened Wrappers
  import opened Seqs
  import opened Types
  import opened Charts

  const PreviewSize: nat := 5

  /** `dailyChart.slice(0, 5)`: the chart's first five entries, in chart order. */
  function PreviewCharts(dailyChart: seq<DailyChartTrack>): (r: seq<DailyChartTrack>)
    ensures |r| == if |dailyChart| < PreviewSize then |dailyChart| else PreviewSize
    ensures forall i :: 0 <= i < |r| ==> r[i] == dailyChart[i]
  {
    Take(dailyChart, PreviewSize)
  }

  /**
   * The time an album sorts by: its release date, read by `parse` (standing for
   * `new Date(d).getTime()`), when it has one, else 1 January of its year as
   * given by `yearStart` (standing for `new Date(year, 0, 1).getTime()`).
   */
  function ReleaseTime(a: Album, parse: string -> int, yearStart: int -> int): int {
    if Truthy(a.releaseDate) then parse(a.releaseDate.value) else yearStart(a.year)
  }

  function ReleaseKey(parse: string -> int, yearStart: int -> int): Album -> int {
    (a: Album) => ReleaseTime(a, parse, yearStart)
  }

  const LatestSize: nat := 5

  /**
   * `latestReleases`: at most five albums, newest first, drawn from the
   * catalogue, and none of the albums left out is newer than one shown.
   */
  function LatestReleases(albums: seq<Album>, parse: string -> int, yearStart: int -> int): (r: seq<Album>)
    ensures |r| == if |albums| < LatestSize then |albums| else LatestSize
    ensures multiset(r) <= multiset(albums)
    ensures forall a :: a in r ==> a in albums
    ensures forall i, j :: 0 <= i < j < |r| ==>
      ReleaseTime(r[i], parse, yearStart) >= ReleaseTime(r[j], parse, yearStart)
    ensures forall a, c :: a in multiset(albums) - multiset(r) && c in r ==>
      ReleaseTime(c, parse, yearStart) >= ReleaseTime(a, parse, yearStart)
  {
    var r := Top(albums, LatestSize, ReleaseKey(parse, yearStart));
    assert SortedDesc(r, ReleaseKey(parse, yearStart));
    r
  }

  datatype TimeOfDay = Morning | Afternoon | Evening

  /** The band of the day an hour falls in: before 12, before 18, or later. */
  function Band(hour: int): TimeOfDay {
    if hour < 12 then Morning else if hour < 18 then Afternoon else Evening
  }

  const RussianLanguage: string := "Russian"

  /** The greeting of each band, in English or (for the 'Russian' setting) Russian. */
  function Phrase(band: TimeOfDay, russian: bool): string {
    match band
    case Morning => if russian then "Доброе утро" else "Good morning"
    case Afternoon => if russian then "Добрый день" else "Good afternoon"
    case Evening => if russian then "Добрый вечер" else "Good evening"
  }

  /** `getGreeting`, with the clock's hour as a parameter. */
  function Greeting(hour: int, language: string): (g: string)
    ensures g == Phrase(Band(hour), language == RussianLanguage)
  {
    var russian := language == RussianLanguage;
    var morning := if russian then "Доброе утро" else "Good morning";
    var afternoon := if russian then "Добрый день" else "Good afternoon";
    var evening := if russian then "Добрый вечер" else "Good evening";
    if hour < 12 then morning
    else if hour < 18 then afternoon
    else evening
  }

  /** The six phrases are pairwise different, so a phrase tells its band and language. */
  lemma PhrasesDistinct(b1: TimeOfDay, r1: bool, b2: TimeOfDay, r2: bool)
    ensures Phrase(b1, r1) == Phrase(b2, r2) <==> b1 == b2 && r1 == r2
  {
    if Phrase(b1, r1) == Phrase(b2, r2) {
      var p := Phrase(b1, r1);
      assert p[0] == Phrase(b2, r2)[0];
      assert |p| == |Phrase(b2, r2)|;
      if |p| > 5 {
        assert p[5] == Phrase(b2, r2)[5];
      }
    }
  }

  /**
   * The greeting says morning exactly before noon, afternoon exactly from 12 to
   * 17, evening exactly from 18 on, and is Russian exactly for the 'Russian'
   * setting.
   */
  lemma GreetingBands(hour: int, language: string)
    ensures Greeting(hour, language) == Phrase(Morning, language == RussianLanguage) <==> hour < 12
    ensures Greeting(hour, language) == Phrase(Afternoon, language == RussianLanguage) <==> 12 <= hour < 18
    ensures Greeting(hour, language) == Phrase(Evening, language == RussianLanguage) <==> 18 <= hour
    ensures (exists b :: Greeting(hour, language) == Phrase(b, true)) <==> language == RussianLanguage
  {
    var russian := language == RussianLanguage;
    PhrasesDistinct(Band(hour), russian, Morning, russian);
    PhrasesDistinct(Band(hour), russian, Afternoon, russian);
    PhrasesDistinct(Band(hour), russian, Evening, russian);
    if exists b :: Greeting(hour, language) == Phrase(b, true) {
      var b :| Greeting(hour, language) == Phrase(b, true);
      PhrasesDistinct(Band(hour), russian, b, true);
    }
  }

  /** `Array.from(new Set([track.artist, ...(track.mainArtists || [])]))`. */
  function AllArtists(t: Track): (r: seq<string>)
    ensures |r| > 0 && r[0] == t.artist
    ensures NoDup(r)
    ensures forall a :: a in r <==> a == t.artist || a in t.mainArtists
  {
    Dedup([t.artist] + t.mainArtists)
  }

  /** The names after the primary artist keep the order of their first listing. */
  lemma AllArtistsOrder(t: Track, i: int, j: int)
    requires 0 <= i < j < |AllArtists(t)|
    ensures IndexOf([t.artist] + t.mainArtists, AllArtists(t)[i]) < IndexOf([t.artist] + t.mainArtists, AllArtists(t)[j])
  {
    DedupFirstOccurrenceOrder([t.artist] + t.mainArtists, i, j);
  }
}
