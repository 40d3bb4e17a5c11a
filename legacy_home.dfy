/**
 * The earlier home screen: a row of the three best-rated items, then "Top
 * Airing" and "Top Seasonal" columns laid out five cards to a row. Both lists
 * come from the top-airing query.
 */
module LegacyHome {
  import opened Wrappers
  import opened Seqs
  import opened Data
  import opened Home

  /** The earlier `Anime` record: only the fields this screen sets. */
  datatype LegacyAnime = LegacyAnime(id: int, title: string, imageUrl: string, rating: int)

  /** One media entry as a card; the title falls back English, native, "Unknown". */
  function ToLegacyAnime(m: Media): (a: LegacyAnime)
    ensures a.id == m.id
    ensures TitleOf(m.title).Some? ==> a.title == TitleOf(m.title).value
    ensures TitleOf(m.title).None? ==> a.title == "Unknown"
    ensures m.averageScore.None? ==> a.rating == 0
    ensures m.averageScore.Some? ==> a.rating == m.averageScore.value
    ensures m.bannerImage.None? ==> a.imageUrl == ""
    ensures m.bannerImage.Some? ==> a.imageUrl == m.bannerImage.value
  {
    LegacyAnime(m.id, TitleOf(m.title).GetOr("Unknown"), m.bannerImage.GetOr(""), m.averageScore.GetOr(0))
  }

  /** The lambda of `mapNotNull { it?.let { Anime(...) } }` on this screen. */
  function LegacyOf(o: Option<Media>): Option<LegacyAnime> {
    if o.Some? then Some(ToLegacyAnime(o.value)) else None
  }

  /** `media?.mapNotNull { it?.let { Anime(...) } } ?: emptyList()`. */
  function ToLegacyList(media: Option<seq<Option<Media>>>): (r: seq<LegacyAnime>)
    ensures media.None? ==> r == []
    ensures media.Some? ==> |r| <= |media.value|
    ensures forall m :: media.Some? && Some(m) in media.value ==> ToLegacyAnime(m) in r
    ensures forall a :: a in r ==> media.Some? && exists m :: Some(m) in media.value && a == ToLegacyAnime(m)
  {
    match media
    case None => []
    case Some(ms) =>
      assert forall m :: Some(m) in ms ==> LegacyOf(Some(m)) == Some(ToLegacyAnime(m));
      MapNotNull(ms, LegacyOf)
  }

  /** One response entry: a null gives nothing, a media entry gives its card. */
  lemma ToLegacyListSingle(o: Option<Media>)
    ensures ToLegacyList(Some([o])) == if o.Some? then [ToLegacyAnime(o.value)] else []
  {
    MapNotNullSingle(o, LegacyOf);
  }

  /** The cards keep the response's order and multiplicity: the mapping distributes over concatenation. */
  lemma ToLegacyListAppend(a: seq<Option<Media>>, b: seq<Option<Media>>)
    ensures ToLegacyList(Some(a + b)) == ToLegacyList(Some(a)) + ToLegacyList(Some(b))
  {
    MapNotNullAppend(a, b, LegacyOf);
  }

  /** The key of `sortedByDescending { it.rating }`. */
  function RatingOf(a: LegacyAnime): int {
    a.rating
  }

  /** The three lists the screen shows. */
  datatype HomeLists = HomeLists(topThree: seq<LegacyAnime>, topSeasonal: seq<LegacyAnime>, topAiring: seq<LegacyAnime>)

  /**
   * The launch effect, given the two top-airing responses: the best three of
   * the second, its items 3..12 in response order, and the first ten of the first.
   */
  function LoadLegacyHome(airing: Option<seq<Option<Media>>>, seasonal: Option<seq<Option<Media>>>): (r: HomeLists)
    ensures IsTopRated(r.topThree, ToLegacyList(seasonal), RatingOf)
    ensures var n := |ToLegacyList(seasonal)|;
      |r.topSeasonal| == if n >= 13 then 10 else if n > 3 then n - 3 else 0
    ensures forall i :: 0 <= i < |r.topSeasonal| ==> r.topSeasonal[i] == ToLegacyList(seasonal)[3 + i]
    ensures var n := |ToLegacyList(airing)|; |r.topAiring| == if n < 10 then n else 10
    ensures forall i :: 0 <= i < |r.topAiring| ==> r.topAiring[i] == ToLegacyList(airing)[i]
  {
    var all := ToLegacyList(seasonal);
    var rest := Drop(all, 3);
    assert |rest| == if |all| > 3 then |all| - 3 else 0;
    HomeLists(
      TopRated(all, RatingOf),
      Take(rest, 10),
      Take(ToLegacyList(airing), 10))
  }

  /** Cards per row. */
  const CardsPerRow: nat := 5

  /** `chunked(5)`: the rows read in order give the list back, and every row but the last is full. */
  function CardRows(list: seq<LegacyAnime>): (rows: seq<seq<LegacyAnime>>)
    ensures Flatten(rows) == list
    ensures forall i :: 0 <= i < |rows| ==> 0 < |rows[i]| <= CardsPerRow
    ensures forall i :: 0 <= i < |rows| - 1 ==> |rows[i]| == CardsPerRow
  {
    Chunked(list, CardsPerRow)
  }

  /** Ten items make two full rows. */
  lemma TenItemsTwoRows(list: seq<LegacyAnime>)
    requires |list| == 10
    ensures CardRows(list) == [list[..5], list[5..]]
  {
    assert Chunked(list[5..], CardsPerRow) == [list[5..]];
  }
}
