/**
 * The browse screen: the grid's column count, the client-side title search,
 * the filter panel (genre toggles, rating threshold, labels) and loading a page
 * of results.
 */
module Browse {
  import opened Wrappers
  import opened Text
  import opened Seqs
  import opened Data
  import opened AnimeDataApi

  /** Grid columns for a window width in dp: 2, 4, 6, 8 or 10 at 600, 900, 1200 and 1800. */
  function Columns(width: int): (c: int)
    ensures 2 <= c <= 10 && c % 2 == 0
    ensures c == 2 <==> width < 600
    ensures c == 10 <==> width >= 1800
  {
    if width < 600 then 2
    else if width < 900 then 4
    else if width < 1200 then 6
    else if width < 1800 then 8
    else 10
  }

  /** A wider window never shows fewer columns. */
  lemma ColumnsMonotone(w1: int, w2: int)
    requires w1 <= w2
    ensures Columns(w1) <= Columns(w2)
  {
  }

  /** The search test applied to each loaded title. */
  function TitleMatches(query: string): Anime -> bool {
    (a: Anime) => ContainsIgnoreCase(a.title, query)
  }

  /** The displayed results: all of them for an empty query, else those whose title contains it, ignoring case. */
  function Displayed(query: string, raw: seq<Anime>): (r: seq<Anime>)
    ensures r == Keep(raw, TitleMatches(query))
    ensures query == "" ==> r == raw
    ensures forall a :: a in r <==> a in raw && ContainsIgnoreCase(a.title, query)
  {
    if query == "" then
      forall a | a in raw ensures TitleMatches(query)(a) {
        ContainsEmpty(a.title);
      }
      KeepAll(raw, TitleMatches(query));
      raw
    else
      Keep(raw, TitleMatches(query))
  }

  /** The genres the filter panel offers. */
  datatype AnimeGenre = Action | Adventure | Comedy

  function DisplayName(g: AnimeGenre): (name: string)
    ensures |name| > 0
  {
    match g
    case Action => "Action"
    case Adventure => "Adventure"
    case Comedy => "Comedy"
  }

  /** A click on a genre: removes it when selected, appends it otherwise. */
  function ToggleGenre(genres: seq<AnimeGenre>, g: AnimeGenre): (r: seq<AnimeGenre>)
    ensures g in genres ==> multiset(r) == multiset(genres) - multiset{g}
    ensures g !in genres ==> multiset(r) == multiset(genres) + multiset{g} && |r| == |genres| + 1 && r[..|genres|] == genres
  {
    if g in genres then RemoveFirst(genres, g) else genres + [g]
  }

  /** On a selection without repeats, a click flips exactly that genre and keeps the selection free of repeats. */
  lemma ToggleKeepsNoDup(genres: seq<AnimeGenre>, g: AnimeGenre)
    requires NoDup(genres)
    ensures NoDup(ToggleGenre(genres, g))
    ensures g in ToggleGenre(genres, g) <==> g !in genres
    ensures forall x :: x != g ==> (x in ToggleGenre(genres, g) <==> x in genres)
  {
    if g in genres {
      RemoveFirstNoDup(genres, g);
    } else {
      var r := genres + [g];
      forall i, j | 0 <= i < j < |r| ensures r[i] != r[j] {
        if j == |genres| {
          assert r[i] in genres;
        }
      }
    }
  }

  /** Removing an appended element that was not there gives the list back. */
  lemma {:induction false} RemoveAppended(genres: seq<AnimeGenre>, g: AnimeGenre)
    requires g !in genres
    ensures RemoveFirst(genres + [g], g) == genres
  {
    if genres != [] {
      assert (genres + [g])[1..] == genres[1..] + [g];
      RemoveAppended(genres[1..], g);
    }
  }

  /** Toggling an unselected genre twice restores the exact list. */
  lemma ToggleTwiceAbsent(genres: seq<AnimeGenre>, g: AnimeGenre)
    requires g !in genres
    ensures ToggleGenre(ToggleGenre(genres, g), g) == genres
  {
    RemoveAppended(genres, g);
  }

  /** Toggling a selected genre twice restores the selection, with that genre moved to the end. */
  lemma ToggleTwicePresent(genres: seq<AnimeGenre>, g: AnimeGenre)
    requires NoDup(genres) && g in genres
    ensures ToggleGenre(ToggleGenre(genres, g), g) == RemoveFirst(genres, g) + [g]
    ensures multiset(ToggleGenre(ToggleGenre(genres, g), g)) == multiset(genres)
  {
    RemoveFirstNoDup(genres, g);
  }

  /** `capitalize()`: lower-cases the text, then upper-cases its first character. */
  function Capitalize(s: string): (r: string)
    ensures |r| == |s|
    ensures |s| > 0 ==> r[0] == UpperChar(LowerChar(s[0]))
    ensures forall i :: 1 <= i < |s| ==> r[i] == LowerChar(s[i])
  {
    var low := Lower(s);
    if low == [] then [] else [UpperChar(low[0])] + low[1..]
  }

  /** Capitalizing twice is capitalizing once. */
  lemma CapitalizeIdempotent(s: string)
    ensures Capitalize(Capitalize(s)) == Capitalize(s)
  {
    var c := Capitalize(s);
    var cc := Capitalize(c);
    assert |cc| == |c|;
    forall i | 0 <= i < |c| ensures cc[i] == c[i] {
    }
  }

  /** An enum name as the dropdowns show it: "WINTER" becomes "Winter". */
  lemma SeasonLabel()
    ensures Capitalize("WINTER") == "Winter"
  {
    var c := Capitalize("WINTER");
    assert c[0] == 'W' && c[1] == 'i' && c[2] == 'n' && c[3] == 't' && c[4] == 'e' && c[5] == 'r';
  }

  /** The rating options of the dropdown, `0 until 10`. */
  type RatingOption = r: int | 0 <= r < 10

  /** `(minRating * 10).toInt()`: the score threshold sent for a rating option. */
  function ScoreThreshold(r: RatingOption): (t: int)
    ensures 0 <= t <= 90 && t % 10 == 0 && t / 10 == r
  {
    r * 10
  }

  /** The filter panel's state. */
  datatype AnimeFilters = AnimeFilters(
    searchQuery: string,
    season: MediaSeason,
    year: Option<int>,
    genres: seq<AnimeGenre>,
    minRating: RatingOption,
    status: MediaStatus,
    resultSize: int)

  /** The panel's initial state: no season, year, genre, rating or status, 20 results. */
  function DefaultFilters(): (f: AnimeFilters)
    ensures f.season == MediaSeason.Unknown && f.status == MediaStatus.Unknown
    ensures f.year.None? && f.genres == [] && f.minRating == 0 && f.resultSize == 20 && f.searchQuery == ""
  {
    AnimeFilters("", MediaSeason.Unknown, None, [], 0, MediaStatus.Unknown, 20)
  }

  /** The query a search sends: the panel's filters, the typed text, adult titles excluded. */
  function RequestFor(f: AnimeFilters, query: string): (q: FilterQuery)
    ensures q.page == 1 && q.perPage == f.resultSize && q.isAdult == Some(false)
    ensures q.averageScoreGreater == 10 * f.minRating
    ensures q.season.None? <==> f.season == MediaSeason.Unknown
    ensures q.status.None? <==> f.status == MediaStatus.Unknown
    ensures q.seasonYear == f.year
    ensures q.search.None? <==> query == ""
    ensures q.genre.None? <==> f.genres == []
    ensures q.genre.Some? ==> (|q.genre.value| == |f.genres| &&
                               forall i :: 0 <= i < |f.genres| ==> q.genre.value[i] == DisplayName(f.genres[i]))
  {
    var names := seq(|f.genres|, i requires 0 <= i < |f.genres| => DisplayName(f.genres[i]));
    GetByFilter(1, f.resultSize, f.season, f.year, f.status, ScoreThreshold(f.minRating),
                Some(query), Some(false), Some(names))
  }

  /** What a search returned: the page's media list (possibly null), or an exception. */
  datatype LoadOutcome = Loaded(media: Option<seq<Option<Media>>>) | LoadFailed

  /** The screen's state across searches. */
  class BrowseState {
    var rawAnime: seq<Anime>
    var displayedAnime: seq<Anime>
    var isLoading: bool
    var searchQuery: string
    var filters: AnimeFilters

    /** The displayed list always follows the query and the loaded results. */
    predicate Valid()
      reads this
    {
      displayedAnime == Displayed(searchQuery, rawAnime)
    }

    constructor()
      ensures Valid() && rawAnime == [] && displayedAnime == [] && !isLoading
      ensures searchQuery == "" && filters == DefaultFilters()
    {
      rawAnime := [];
      displayedAnime := [];
      isLoading := false;
      searchQuery := "";
      filters := DefaultFilters();
    }

    /** The effect keyed on the query and the results: recomputes what is displayed. */
    method Redisplay()
      modifies this
      ensures displayedAnime == Displayed(searchQuery, rawAnime) && Valid()
      ensures rawAnime == old(rawAnime) && searchQuery == old(searchQuery)
      ensures filters == old(filters) && isLoading == old(isLoading)
    {
      displayedAnime := Displayed(searchQuery, rawAnime);
    }

    /** Typing in the search field re-filters the loaded results. */
    method SetQuery(q: string)
      modifies this
      ensures Valid() && searchQuery == q
      ensures rawAnime == old(rawAnime) && filters == old(filters) && isLoading == old(isLoading)
    {
      searchQuery := q;
      Redisplay();
    }

    /** A click on a genre in the panel. */
    method ClickGenre(g: AnimeGenre)
      modifies this
      ensures filters == old(filters).(genres := ToggleGenre(old(filters.genres), g))
      ensures rawAnime == old(rawAnime) && displayedAnime == old(displayedAnime)
      ensures searchQuery == old(searchQuery) && isLoading == old(isLoading)
    {
      filters := filters.(genres := ToggleGenre(filters.genres, g));
    }

    /**
     * `loadAnimeData()`: sends the query, and on success replaces the results
     * and clears the search text; loading ends either way.
     */
    method LoadAnimeData(respond: FilterQuery -> LoadOutcome) returns (sent: FilterQuery)
      requires Valid()
      modifies this
      ensures sent == RequestFor(old(filters), old(searchQuery))
      ensures Valid() && !isLoading && filters == old(filters)
      ensures respond(sent).Loaded? ==>
        rawAnime == ToAnimeList(respond(sent).media, 0) && searchQuery == "" && displayedAnime == rawAnime
      ensures respond(sent).LoadFailed? ==>
        rawAnime == old(rawAnime) && searchQuery == old(searchQuery) && displayedAnime == old(displayedAnime)
    {
      isLoading := true;
      sent := RequestFor(filters, searchQuery);
      var outcome := respond(sent);
      if outcome.Loaded? {
        rawAnime := ToAnimeList(outcome.media, 0);
        searchQuery := "";
        Redisplay();
      }
      isLoading := false;
    }
  }
}
