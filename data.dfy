/** The records shared by the screens and the caches. */
module Data {
  import opened Wrappers
  import opened Seqs

  /** The GraphQL `MediaSeason` enum; `Unknown` is the client's `UNKNOWN__` sentinel. */
  datatype MediaSeason = Winter | Spring | Summer | Fall | Unknown

  /** The GraphQL `MediaStatus` enum; `Unknown` is the client's `UNKNOWN__` sentinel. */
  datatype MediaStatus = Finished | Releasing | NotYetReleased | Cancelled | Hiatus | Unknown

  /** One anime as the screens display it. */
  datatype Anime = Anime(
    id: int,
    title: string,
    imageUrl: string,
    rating: int,
    description: string,
    season: MediaSeason,
    genres: seq<string>,
    coverImage: string,
    seasonYear: int)

  /** A media title as the queries select it. */
  datatype MediaTitle = MediaTitle(english: Option<string>, native: Option<string>)

  /** The media fields the home and browse queries select; every field but the id is nullable. */
  datatype Media = Media(
    id: int,
    title: Option<MediaTitle>,
    bannerImage: Option<string>,
    averageScore: Option<int>,
    description: Option<string>,
    season: Option<MediaSeason>,
    genres: Option<seq<Option<string>>>,
    coverLarge: Option<string>,
    seasonYear: Option<int>)

  /** `title?.english ?: title?.native`: the English title, else the native one. */
  function TitleOf(t: Option<MediaTitle>): (r: Option<string>)
    ensures t.Some? && t.value.english.Some? ==> r == t.value.english
    ensures (t.None? || t.value.english.None?) ==> r == (if t.Some? then t.value.native else None)
  {
    match t
    case None => None
    case Some(title) => if title.english.Some? then title.english else title.native
  }

  /** The `{ it }` of `mapNotNull { it }`: a present name is kept. */
  function GenreOf(o: Option<string>): Option<string> {
    o
  }

  /** `genres?.mapNotNull { it } ?: emptyList()`. */
  function GenreNames(genres: Option<seq<Option<string>>>): (r: seq<string>)
    ensures genres.None? ==> r == []
    ensures forall g :: g in r <==> genres.Some? && Some(g) in genres.value
  {
    match genres
    case None => []
    case Some(gs) =>
      var r := MapNotNull(gs, GenreOf);
      assert forall g :: Some(g) in gs ==> GenreOf(Some(g)) == Some(g);
      r
  }

  /** The genre list of one entry: the name, or nothing for a null. */
  lemma GenreNamesSingle(o: Option<string>)
    ensures GenreNames(Some([o])) == if o.Some? then [o.value] else []
  {
    MapNotNullSingle(o, GenreOf);
  }

  /** The genre names keep the response's order and multiplicity: they distribute over concatenation. */
  lemma GenreNamesAppend(a: seq<Option<string>>, b: seq<Option<string>>)
    ensures GenreNames(Some(a + b)) == GenreNames(Some(a)) + GenreNames(Some(b))
  {
    MapNotNullAppend(a, b, GenreOf);
  }

  /**
   * The `Anime` the screens build from one media entry: the title falls back
   * English, native, "Unknown"; a missing score is 0, a missing year is
   * `missingYear`, missing strings are "" and a missing season is `Unknown`.
   */
  function ToAnime(m: Media, missingYear: int): (a: Anime)
    ensures a.id == m.id
    ensures TitleOf(m.title).Some? ==> a.title == TitleOf(m.title).value
    ensures TitleOf(m.title).None? ==> a.title == "Unknown"
    ensures m.averageScore.Some? ==> a.rating == m.averageScore.value
    ensures m.averageScore.None? ==> a.rating == 0
    ensures m.seasonYear.None? ==> a.seasonYear == missingYear
    ensures m.seasonYear.Some? ==> a.seasonYear == m.seasonYear.value
    ensures m.season.None? ==> a.season == MediaSeason.Unknown
    ensures m.season.Some? ==> a.season == m.season.value
    ensures m.bannerImage.None? ==> a.imageUrl == ""
    ensures m.bannerImage.Some? ==> a.imageUrl == m.bannerImage.value
    ensures m.coverLarge.None? ==> a.coverImage == ""
    ensures m.coverLarge.Some? ==> a.coverImage == m.coverLarge.value
    ensures m.description.None? ==> a.description == ""
    ensures m.description.Some? ==> a.description == m.description.value
    ensures forall g :: g in a.genres <==> m.genres.Some? && Some(g) in m.genres.value
  {
    Anime(
      m.id,
      TitleOf(m.title).GetOr("Unknown"),
      m.bannerImage.GetOr(""),
      m.averageScore.GetOr(0),
      m.description.GetOr(""),
      m.season.GetOr(MediaSeason.Unknown),
      GenreNames(m.genres),
      m.coverLarge.GetOr(""),
      m.seasonYear.GetOr(missingYear))
  }

  /** The lambda of `mapNotNull { it?.let { Anime(...) } }`. */
  function AnimeOf(missingYear: int): Option<Media> -> Option<Anime> {
    (o: Option<Media>) => if o.Some? then Some(ToAnime(o.value, missingYear)) else None
  }

  /** `media?.mapNotNull { it?.let { Anime(...) } } ?: emptyList()`. */
  function ToAnimeList(media: Option<seq<Option<Media>>>, missingYear: int): (r: seq<Anime>)
    ensures media.None? ==> r == []
    ensures media.Some? ==> |r| <= |media.value|
    ensures media.Some? ==> forall m :: Some(m) in media.value ==> ToAnime(m, missingYear) in r
    ensures forall a :: a in r ==> media.Some? && exists m :: Some(m) in media.value && a == ToAnime(m, missingYear)
  {
    match media
    case None => []
    case Some(ms) =>
      var r := MapNotNull(ms, AnimeOf(missingYear));
      assert forall m :: Some(m) in ms ==> AnimeOf(missingYear)(Some(m)) == Some(ToAnime(m, missingYear));
      r
  }

  /** One response entry: a null gives nothing, a media entry gives its `Anime`. */
  lemma ToAnimeListSingle(o: Option<Media>, missingYear: int)
    ensures ToAnimeList(Some([o]), missingYear) == if o.Some? then [ToAnime(o.value, missingYear)] else []
  {
    MapNotNullSingle(o, AnimeOf(missingYear));
  }

  /** The mapped list keeps the response's order and multiplicity: it distributes over concatenation. */
  lemma ToAnimeListAppend(a: seq<Option<Media>>, b: seq<Option<Media>>, missingYear: int)
    ensures ToAnimeList(Some(a + b), missingYear) == ToAnimeList(Some(a), missingYear) + ToAnimeList(Some(b), missingYear)
  {
    MapNotNullAppend(a, b, AnimeOf(missingYear));
  }
}
