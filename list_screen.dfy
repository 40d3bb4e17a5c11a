/**
 * The user's anime list: the response is flattened into categories, shown as
 * four fixed tabs, and each tab's table can be sorted by a clicked column.
 */
module ListScreen {
  import opened Wrappers
  import opened Text
  import opened Seqs
  import opened Sorting
  import opened Data

  /** One row of a table; every field is nullable as in the response. Scores are whole numbers here. */
  datatype AnimeListItem = AnimeListItem(
    id: Option<int>,
    title: Option<string>,
    episodes: Option<int>,
    score: Option<int>,
    progress: Option<int>)

  /** One list of the collection, under its status name. */
  datatype AnimeListCategory = AnimeListCategory(status: string, entries: Option<seq<Option<AnimeListItem>>>)

  /** The response shapes: a list entry's media, an entry, a list. */
  datatype EntryMedia = EntryMedia(id: int, title: Option<MediaTitle>, episodes: Option<int>)
  datatype ListEntry = ListEntry(media: Option<EntryMedia>, score: Option<int>, progress: Option<int>)
  datatype MediaList = MediaList(status: Option<string>, entries: Option<seq<Option<ListEntry>>>)

  /** `status.toString()` on a nullable enum: its name, or "null". */
  function StatusText(status: Option<string>): (t: string)
    ensures status.Some? ==> t == status.value
    ensures status.None? ==> t == "null"
  {
    status.GetOr("null")
  }

  /** One response entry as a table row; the title falls back English, then native. */
  function ItemOf(e: Option<ListEntry>): (item: AnimeListItem)
    ensures e.None? ==> item == AnimeListItem(None, None, None, None, None)
    ensures e.Some? && e.value.media.Some? ==>
      item.id == Some(e.value.media.value.id) && item.title == TitleOf(e.value.media.value.title) &&
      item.episodes == e.value.media.value.episodes
    ensures e.Some? ==> item.score == e.value.score && item.progress == e.value.progress
  {
    match e
    case None => AnimeListItem(None, None, None, None, None)
    case Some(entry) =>
      match entry.media
      case None => AnimeListItem(None, None, None, entry.score, entry.progress)
      case Some(m) => AnimeListItem(Some(m.id), TitleOf(m.title), m.episodes, entry.score, entry.progress)
  }

  /** One response list as a category. */
  function CategoryOf(l: Option<MediaList>): (c: AnimeListCategory)
    ensures c.status == (if l.Some? then StatusText(l.value.status) else "null")
    ensures (l.None? || l.value.entries.None?) <==> c.entries.None?
    ensures c.entries.Some? ==> (|c.entries.value| == |l.value.entries.value| &&
      forall i :: 0 <= i < |c.entries.value| ==> c.entries.value[i] == Some(ItemOf(l.value.entries.value[i])))
  {
    match l
    case None => AnimeListCategory("null", None)
    case Some(list) =>
      var entries := match list.entries
        case None => None
        case Some(es) => Some(seq(|es|, i requires 0 <= i < |es| => Some(ItemOf(es[i]))));
      AnimeListCategory(StatusText(list.status), entries)
  }

  /** `parseAnimeList`: one category per list of the collection; none when the collection is null. */
  function ParseAnimeList(lists: Option<seq<Option<MediaList>>>): (r: seq<AnimeListCategory>)
    ensures lists.None? ==> r == []
    ensures lists.Some? ==> (|r| == |lists.value| &&
                             forall i :: 0 <= i < |r| ==> r[i] == CategoryOf(lists.value[i]))
  {
    match lists
    case None => []
    case Some(ls) => seq(|ls|, i requires 0 <= i < |ls| => CategoryOf(ls[i]))
  }

  /** The API statuses of the four tabs, in tab order. */
  const ApiCategories: seq<string> := ["CURRENT", "COMPLETED", "PLANNING", "DROPPED"]

  /** The tab labels shown for them. */
  const TabLabels: seq<string> := ["Watching", "Finished", "Set to watch", "Canceled"]

  /** `tables.find { it.status == s } ?: AnimeListCategory(status = s)` */
  function TableFor(tables: seq<AnimeListCategory>, status: string): (c: AnimeListCategory)
    ensures c.status == status
    ensures (forall i :: 0 <= i < |tables| ==> tables[i].status != status) ==> c == AnimeListCategory(status, Some([]))
    ensures (exists i :: 0 <= i < |tables| && tables[i].status == status) ==>
      (exists k :: 0 <= k < |tables| && c == tables[k] &&
                   forall i :: 0 <= i < k ==> tables[i].status != status)
  {
    match FirstMatch(tables, (t: AnimeListCategory) => t.status == status)
    case Some(t) => t
    case None => AnimeListCategory(status, Some([]))
  }

  /** `reorderedTables`: exactly the four tabs, in order, each the first list with that status. */
  function ReorderedTables(tables: seq<AnimeListCategory>): (r: seq<AnimeListCategory>)
    ensures |r| == |ApiCategories| == 4
    ensures forall i :: 0 <= i < 4 ==> r[i] == TableFor(tables, ApiCategories[i])
    ensures forall i :: 0 <= i < 4 ==> r[i].status == ApiCategories[i]
  {
    seq(4, i requires 0 <= i < 4 => TableFor(tables, ApiCategories[i]))
  }

  /** `reorderedTables.getOrNull(tab)`: a tab index outside 0..3 shows no table. */
  function SelectedCategory(tables: seq<AnimeListCategory>, tab: int): (c: Option<AnimeListCategory>)
    ensures c.Some? <==> 0 <= tab < 4
    ensures c.Some? ==> c.value.status == ApiCategories[tab]
    ensures c.Some? ==> c.value == TableFor(tables, ApiCategories[tab])
  {
    var r := ReorderedTables(tables);
    if 0 <= tab < |r| then Some(r[tab]) else None
  }

  /** The sortable columns. */
  datatype SortBy = TitleColumn | ScoreColumn | ProgressColumn | EpisodesColumn

  /** `it?.title`, `it?.score`, `it?.progress` or `it?.episodes` as a sort key. */
  function KeyOf(column: SortBy): Option<AnimeListItem> -> Key {
    (e: Option<AnimeListItem>) =>
      if e.None? then Absent
      else match column
        case TitleColumn => if e.value.title.Some? then Str(e.value.title.value) else Absent
        case ScoreColumn => if e.value.score.Some? then Num(e.value.score.value) else Absent
        case ProgressColumn => if e.value.progress.Some? then Num(e.value.progress.value) else Absent
        case EpisodesColumn => if e.value.episodes.Some? then Num(e.value.episodes.value) else Absent
  }

  /** `sortedEntries`: response order without a column; otherwise a stable sort by it in the chosen direction. */
  function SortedEntries(entries: Option<seq<Option<AnimeListItem>>>, sortBy: Option<SortBy>, ascending: bool)
    : (r: Option<seq<Option<AnimeListItem>>>)
    ensures r.None? <==> entries.None?
    ensures sortBy.None? ==> r == entries
    ensures r.Some? ==> multiset(r.value) == multiset(entries.value)
    ensures r.Some? && sortBy.Some? ==> SortedBy(r.value, KeyOf(sortBy.value), !ascending)
  {
    match sortBy
    case None => entries
    case Some(column) =>
      match entries
      case None => None
      case Some(es) => Some(Sort(es, KeyOf(column), !ascending))
  }

  /** Rows with equal values in the sorted column keep their response order. */
  lemma SortedEntriesStable(es: seq<Option<AnimeListItem>>, column: SortBy, ascending: bool, k: Key)
    ensures Keep(SortedEntries(Some(es), Some(column), ascending).value, HasKey(KeyOf(column), k))
         == Keep(es, HasKey(KeyOf(column), k))
  {
    SortStable(es, KeyOf(column), !ascending, k);
  }

  // ---------------------------------------------------------------------------
  // Header clicks
  // ---------------------------------------------------------------------------

  /** The column being sorted and the direction. */
  datatype SortState = SortState(sortBy: Option<SortBy>, ascending: bool)

  const InitialSort: SortState := SortState(None, true)

  /**
   * A header click as written: the column is assigned before the comparison,
   * so the comparison always holds and the direction always flips.
   */
  function ClickAsWritten(s: SortState, k: SortBy): (r: SortState)
    ensures r.sortBy == Some(k)
    ensures r.ascending == !s.ascending
  {
    var sortBy := Some(k);
    var ascending := if sortBy == Some(k) then !s.ascending else true;
    SortState(sortBy, ascending)
  }

  /** As written, the very first click on any column sorts it descending. */
  lemma FirstClickDescends(k: SortBy)
    ensures ClickAsWritten(InitialSort, k) == SortState(Some(k), false)
    ensures ClickAsWritten(SortState(Some(TitleColumn), false), ScoreColumn).ascending
  {
  }

  /** The evident intent: a click on the sorted column flips it; a click on another column sorts that one ascending. */
  function Click(s: SortState, k: SortBy): (r: SortState)
    ensures r.sortBy == Some(k)
    ensures s.sortBy == Some(k) ==> r.ascending == !s.ascending
    ensures s.sortBy != Some(k) ==> r.ascending
  {
    SortState(Some(k), if s.sortBy == Some(k) then !s.ascending else true)
  }

  /** Once a column is sorted, each further click on it reverses the order, and two clicks restore it. */
  lemma ClickTwiceRestores(s: SortState, k: SortBy)
    ensures Click(Click(s, k), k).ascending == !Click(s, k).ascending
    ensures Click(Click(Click(s, k), k), k) == Click(s, k)
  {
  }

  /** The two versions differ exactly on a click that changes the column. */
  lemma ClickDiffersOnNewColumn(s: SortState, k: SortBy)
    ensures Click(s, k) == ClickAsWritten(s, k) <==> s.sortBy == Some(k) || !s.ascending
  {
  }

  /** A table's sorting state. */
  class AnimeTable {
    var state: SortState

    constructor()
      ensures state == InitialSort
    {
      state := InitialSort;
    }

    method HeaderClick(k: SortBy)
      modifies this
      ensures state == Click(old(state), k)
    {
      state := Click(state, k);
    }

    /**
     * The rows the table shows for a category: the entries in response order
     * while no column is chosen, otherwise stably sorted by the chosen column.
     * A null entry keeps its row but renders nothing.
     */
    function Rows(c: AnimeListCategory): (r: seq<Option<AnimeListItem>>)
      reads this
      ensures c.entries.None? ==> r == []
      ensures state.sortBy.None? ==> r == c.entries.GetOr([])
      ensures c.entries.Some? ==> multiset(r) == multiset(c.entries.value)
      ensures c.entries.Some? && state.sortBy.Some? ==> SortedBy(r, KeyOf(state.sortBy.value), !state.ascending)
    {
      SortedEntries(c.entries, state.sortBy, state.ascending).GetOr([])
    }
  }

  // ---------------------------------------------------------------------------
  // Row controls
  // ---------------------------------------------------------------------------

  /** What the +1 control does: nothing shown, a log line either way, or a crash on a null count. */
  datatype PlusOneOutcome = NotShown | LoggedAdd | LoggedAtLatest | NullCrash

  /** The +1 control: shown on the first tab only; it compares progress with episodes and changes no entry. */
  function PlusOne(entry: AnimeListItem, tab: int): (r: PlusOneOutcome)
    ensures r == NotShown <==> tab != 0
    ensures r == NullCrash <==> tab == 0 && (entry.progress.None? || entry.episodes.None?)
    ensures r == LoggedAdd <==>
      tab == 0 && entry.progress.Some? && entry.episodes.Some? && entry.progress.value < entry.episodes.value
  {
    if tab != 0 then NotShown
    else if entry.progress.None? || entry.episodes.None? then NullCrash
    else if entry.progress.value < entry.episodes.value then LoggedAdd
    else LoggedAtLatest
  }

  /** `toString()` of a nullable Int. */
  function ShowNullable(v: Option<int>): string {
    if v.Some? then IntToString(v.value) else "null"
  }

  /**
   * The copy the Save button builds: the typed numbers replace episodes and
   * score, and text that does not parse keeps the old value. The copy is handed
   * to `updateEntry`, whose body is empty, so saving changes no entry.
   */
  function SaveEdit(entry: AnimeListItem, episodeText: string, scoreText: string): (r: AnimeListItem)
    ensures r.id == entry.id && r.title == entry.title && r.progress == entry.progress
    ensures ParseInt(episodeText).Some? ==> r.episodes == ParseInt(episodeText)
    ensures ParseInt(episodeText).None? ==> r.episodes == entry.episodes
    ensures ParseInt(scoreText).Some? ==> r.score == ParseInt(scoreText)
    ensures ParseInt(scoreText).None? ==> r.score == entry.score
  {
    var episodes := if ParseInt(episodeText).Some? then ParseInt(episodeText) else entry.episodes;
    var score := if ParseInt(scoreText).Some? then ParseInt(scoreText) else entry.score;
    entry.(episodes := episodes, score := score)
  }

  /** Saving the dialog without editing its prefilled text gives the entry back. */
  lemma SaveUneditedIsIdentity(entry: AnimeListItem)
    requires entry.episodes.Some? ==> MinInt <= entry.episodes.value <= MaxInt
    requires entry.score.Some? ==> MinInt <= entry.score.value <= MaxInt
    ensures SaveEdit(entry, ShowNullable(entry.episodes), ShowNullable(entry.score)) == entry
  {
    assert ParseInt("null").None? by {
      assert !IsDigit('n');
    }
    if entry.episodes.Some? {
      ParseIntToString(entry.episodes.value);
    }
    if entry.score.Some? {
      ParseIntToString(entry.score.value);
    }
  }
}
