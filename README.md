# Aiko core, modelled in Dafny

Aiko is a desktop anime client built with Kotlin and Compose. It browses
AniList through its GraphQL API, keeps the user's lists in sync and plays
episodes. It plays them through a self-hosted "hianime" REST API, and it can
route the stream through an HLS proxy. This project models the logic behind
that client and proves properties of it:

- the in-memory caches of the home lists: the current `MemCache` and the
  legacy `AnimeCache`, with their five-minute freshness rule;
- the REST client (`AnimeFetcher`):
  - the URLs it builds;
  - how an HTTP exchange becomes a `Result`;
  - the "hd-1 then hd-2" stream-server fallback, written as a loop;
- the GraphQL side (`AnimeData`):
  - the bearer-token interceptor with its single retry on 401;
  - the normalisation of the filter query;
  - the hard-wired user-list name;
- the AniList OAuth token capture and the `do_auth` flow;
- the configuration:
  - `AppConfig` and its defaults;
  - `ConfigManager`, with its validity rule, setters and save/load round trip;
- the version check (`AppVersion`), with its whitespace trim and
  lexicographic comparison;
- the file logger: log-file naming, the timestamp format and the exact line
  layout;
- each screen's state and pure logic:
  - home: the refresh effect, the top-three and top-ten lists, the update
    button;
  - browse: columns, title filter, genre toggles, the filter request, loading;
  - list: list parsing, the tab order, stable sorting with nulls first, the
    header clicks, the "+1" button, saving an edit;
  - anime: star rating, the watch button guarded by a valid config;
  - player: proxy and subtitle URLs, episode navigation, time formatting;
  - log viewer: file ordering and filtering, line parsing, colours;
- the main window: size from the resolution, keyboard shortcuts, the
  title-bar buttons, navigation;
- the legacy window and the legacy home screen under `src/main`.

Kotlin behaviour is written out wherever it matters:

- `substringBefore`/`substringAfter` return the receiver when the delimiter is
  missing;
- `sortedBy` is stable and puts nulls first;
- `/` and `%` truncate toward zero;
- `toIntOrNull` is limited to 32 bits;
- `String.compareTo` is lexicographic, character by character;
- `trim` drops whitespace at both ends;
- `Base64.getEncoder()` follows RFC 4648 section 4, over UTF-8 bytes.

Everything outside the program is a parameter:

- the clock, the date and the time of day;
- HTTP and GraphQL responses, and the URL-encoder's output;
- the contents of the TOML file;
- the OAuth server's answer.

| file | models |
|---|---|
| `wrappers.dfy` | `Option` |
| `text.dfy` | the Kotlin string functions used by the core |
| `seqs.dfy` | the Kotlin list functions used by the core |
| `sorting.dfy` | a stable sort, with the nulls-first key order of `compareValues` |
| `base64.dfy` | Base64 and UTF-8 encoding |
| `data.dfy` | `Anime`, the GraphQL `Media` record and its mapping |
| `config.dfy` | `AppConfig.kt` and `ConfigManager.kt` |
| `mem_cache.dfy` | `api/MemCache.kt` |
| `anime_cache.dfy` | `src/main/.../api/AnimeCache.kt` |
| `anime_fetcher.dfy` | `api/AnimeFetcher.kt` |
| `anime_data.dfy` | `api/AnimeData.kt` |
| `auth.dfy` | `api/auth/anilist/auth.kt` |
| `app_version.dfy` | `config/AppVersion.kt` |
| `logger.dfy` | `logging/logger.kt` |
| `home.dfy` | `screens/HomeScreen.kt` |
| `legacy_home.dfy` | `src/main/.../screens/HomeScreen.kt` |
| `browse.dfy` | `screens/BrowseScreen.kt` |
| `list_screen.dfy` | `screens/ListScreen.kt` |
| `anime_screen.dfy` | `screens/AnimeScreen.kt` |
| `player.dfy` | `screens/PlayerScreen.kt` |
| `log_viewer.dfy` | `screens/LogViewerScreen.kt` |
| `entry.dfy` | `Entry.kt` |
| `legacy_entry.dfy` | `src/main/.../Entry.kt` |

## Model

| member | source | states |
|---|---|---|
| Config.DefaultConfig | App/src/desktopMain/kotlin/dev/dubsky/aiko/config/AppConfig.kt:5-15 | the defaults: resolution "FHD", no logging, the orange theme, no auto-update, every string setting empty |
| Config.DefaultIsInvalid | App/src/desktopMain/kotlin/dev/dubsky/aiko/config/ConfigManager.kt:36-38 | a fresh configuration is not valid, so playback is refused until api, proxy and refer are set |
| Config.ClearingRequiredInvalidates | App/src/desktopMain/kotlin/dev/dubsky/aiko/config/ConfigManager.kt:36-38 | clearing any one of api, proxy or refer makes the configuration invalid |
| Config.ValidityIgnoresOtherFields | App/src/desktopMain/kotlin/dev/dubsky/aiko/config/ConfigManager.kt:36-38 | validity depends only on api, proxy and refer |
| Config.LoadConfig | App/src/desktopMain/kotlin/dev/dubsky/aiko/config/ConfigManager.kt:28-34 | a missing file yields the defaults; otherwise the stored configuration |
| Config.ConfigManager.constructor | App/src/desktopMain/kotlin/dev/dubsky/aiko/config/ConfigManager.kt:28-34 | the manager starts with the configuration loaded from the file |
| Config.ConfigManager.SaveConfig | App/src/desktopMain/kotlin/dev/dubsky/aiko/config/ConfigManager.kt:85-90 | the file now holds the current configuration, and loading it gives that configuration back |
| Config.ConfigManager.SetProxy | App/src/desktopMain/kotlin/dev/dubsky/aiko/config/ConfigManager.kt:40-44 | only `proxy` changes, and the change is saved |
| Config.ConfigManager.SetRefer | App/src/desktopMain/kotlin/dev/dubsky/aiko/config/ConfigManager.kt:45-49 | only `refer` changes, and the change is saved |
| Config.ConfigManager.SetAutoUpdate | App/src/desktopMain/kotlin/dev/dubsky/aiko/config/ConfigManager.kt:50-54 | only `autoUpdate` changes, and the change is saved |
| Config.ConfigManager.SetApi | App/src/desktopMain/kotlin/dev/dubsky/aiko/config/ConfigManager.kt:55-59 | only `api` changes, and the change is saved |
| Config.ConfigManager.SetLogging | App/src/desktopMain/kotlin/dev/dubsky/aiko/config/ConfigManager.kt:60-64 | only `logging` changes, and the change is saved |
| Config.ConfigManager.SetTheme | App/src/desktopMain/kotlin/dev/dubsky/aiko/config/ConfigManager.kt:65-69 | only `theme` changes, and the change is saved |
| Config.ConfigManager.SetResolution | App/src/desktopMain/kotlin/dev/dubsky/aiko/config/ConfigManager.kt:70-74 | only `resolution` changes, and the change is saved |
| Config.ConfigManager.SetToken | App/src/desktopMain/kotlin/dev/dubsky/aiko/config/ConfigManager.kt:75-79 | only `authToken` changes, and the change is saved |
| Config.ConfigManager.SetUser | App/src/desktopMain/kotlin/dev/dubsky/aiko/config/ConfigManager.kt:80-84 | only `userName` changes, and the change is saved |
| Config.FirstStart | App/src/desktopMain/kotlin/dev/dubsky/aiko/config/ConfigManager.kt:28-38 | with no file, the manager holds the defaults and is not ready |
| Config.Configure | App/src/desktopMain/kotlin/dev/dubsky/aiko/config/ConfigManager.kt:40-59 | setting api, proxy and refer to non-empty values makes any loaded configuration ready, and the result is saved |
| MemCacheApi.FreshIff | App/src/desktopMain/kotlin/dev/dubsky/aiko/api/MemCache.kt:24-30 | a slot is fresh exactly when it is set and younger than 300000 ms |
| MemCacheApi.ExpiresAtDuration | App/src/desktopMain/kotlin/dev/dubsky/aiko/api/MemCache.kt:9-25 | an entry is stale at 300000 ms after it was stored, and fresh 1 ms before that |
| MemCacheApi.MemCache.constructor | App/src/desktopMain/kotlin/dev/dubsky/aiko/api/MemCache.kt:16-22 | both slots start unset and both lists start empty |
| MemCacheApi.MemCache.UpdateTopAiring | App/src/desktopMain/kotlin/dev/dubsky/aiko/api/MemCache.kt:32-35 | the airing slot and list now hold the data, stamped with `now`; the seasonal slot and list are unchanged; the slot and list stay in step |
| MemCacheApi.MemCache.UpdateTopSeasonal | App/src/desktopMain/kotlin/dev/dubsky/aiko/api/MemCache.kt:37-40 | the seasonal slot and list now hold the data, stamped with `now`; the airing slot and list are unchanged |
| MemCacheApi.NewCacheNeedsRefresh | App/src/desktopMain/kotlin/dev/dubsky/aiko/api/MemCache.kt:27-30 | a cache with no slots set always needs a refresh |
| MemCacheApi.NeedsRefreshIff | App/src/desktopMain/kotlin/dev/dubsky/aiko/api/MemCache.kt:24-30 | no refresh is needed exactly when both slots are set and both are younger than five minutes |
| MemCacheApi.UpdateOnlyAiring | App/src/desktopMain/kotlin/dev/dubsky/aiko/api/MemCache.kt:27-35 | after only the airing list is stored, a refresh is still needed |
| MemCacheApi.UpdateBoth | App/src/desktopMain/kotlin/dev/dubsky/aiko/api/MemCache.kt:27-40 | after both lists are stored at time t, a refresh is needed exactly when five minutes have passed |
| AnimeCacheApi.AnimeCache.constructor | src/main/kotlin/dev/dubsky/aiko/api/AnimeCache.kt:16-25 | all three slots start unset and all three lists start empty |
| AnimeCacheApi.AnimeCache.UpdateTopAiring | src/main/kotlin/dev/dubsky/aiko/api/AnimeCache.kt:36-39 | the airing slot and list hold the data at `now`; the other two slots are unchanged |
| AnimeCacheApi.AnimeCache.UpdateTopSeasonal | src/main/kotlin/dev/dubsky/aiko/api/AnimeCache.kt:41-44 | the seasonal slot and list hold the data at `now`; the other two slots are unchanged |
| AnimeCacheApi.AnimeCache.UpdateTopThree | src/main/kotlin/dev/dubsky/aiko/api/AnimeCache.kt:46-49 | the top-three slot and list hold the data at `now`; the other two slots are unchanged |
| AnimeCacheApi.UnsetSlotNeedsRefresh | src/main/kotlin/dev/dubsky/aiko/api/AnimeCache.kt:30-34 | any unset slot forces a refresh |
| AnimeCacheApi.ExpiredSlotNeedsRefresh | src/main/kotlin/dev/dubsky/aiko/api/AnimeCache.kt:27-34 | any slot at least 300000 ms old forces a refresh |
| AnimeCacheApi.UpdateAll | src/main/kotlin/dev/dubsky/aiko/api/AnimeCache.kt:27-49 | after all three updates at time t, no refresh is needed exactly while less than five minutes have passed |
| Data.TitleOf | App/src/desktopMain/kotlin/dev/dubsky/aiko/screens/HomeScreen.kt:63 | the English title when present, else the native title |
| Data.GenreNames | App/src/desktopMain/kotlin/dev/dubsky/aiko/screens/HomeScreen.kt:68 | no list gives no genres; otherwise the genre names are exactly the non-null entries of the list |
| Data.GenreNamesSingle | App/src/desktopMain/kotlin/dev/dubsky/aiko/screens/HomeScreen.kt:68 | a single entry gives its name, or nothing when it is null |
| Data.GenreNamesAppend | App/src/desktopMain/kotlin/dev/dubsky/aiko/screens/HomeScreen.kt:68 | the names of two lists joined are the names of the first followed by those of the second, so order and repeats are kept |
| Data.ToAnime | App/src/desktopMain/kotlin/dev/dubsky/aiko/screens/HomeScreen.kt:59-73 | each field of `Anime` is the matching `Media` field when present (title English then native), and otherwise the default "Unknown", 0, "", UNKNOWN__ or the missing-year value |
| Data.ToAnimeList | App/src/desktopMain/kotlin/dev/dubsky/aiko/screens/HomeScreen.kt:59-73 | no response gives an empty list; otherwise every non-null medium is mapped, and every result comes from one |
| Data.ToAnimeListSingle | App/src/desktopMain/kotlin/dev/dubsky/aiko/screens/HomeScreen.kt:59-73 | a single response entry gives its `Anime`, or nothing when it is null |
| Data.ToAnimeListAppend | App/src/desktopMain/kotlin/dev/dubsky/aiko/screens/HomeScreen.kt:59-73 | mapping two responses joined gives the first's items followed by the second's, so response order and repeats are kept |
| Fetcher.SearchUrl | App/src/desktopMain/kotlin/dev/dubsky/aiko/api/AnimeFetcher.kt:25-30 | the base URL, then `/api/v2/hianime/search?q=` and the encoded query, then `&page=` and the page number |
| Fetcher.EpisodesUrl | App/src/desktopMain/kotlin/dev/dubsky/aiko/api/AnimeFetcher.kt:32-36 | the base URL, then `/api/v2/hianime/anime/`, the anime id and `/episodes` |
| Fetcher.SourcesUrl | App/src/desktopMain/kotlin/dev/dubsky/aiko/api/AnimeFetcher.kt:41 | the base URL, then `/api/v2/hianime/episode/sources?animeEpisodeId=`, the episode id, `?server=` and the server name |
| Fetcher.ExecuteGetRequest | App/src/desktopMain/kotlin/dev/dubsky/aiko/api/AnimeFetcher.kt:58-70 | success exactly for a 2xx response with a body, and the value is that body; a non-2xx code is an HTTP error "Unexpected code N"; a missing body and a transport failure are I/O errors |
| Fetcher.MapCatching | App/src/desktopMain/kotlin/dev/dubsky/aiko/api/AnimeFetcher.kt:43-45 | failures pass through; a body that does not parse becomes a parse error; otherwise the parsed value |
| Fetcher.Resolve | App/src/desktopMain/kotlin/dev/dubsky/aiko/api/AnimeFetcher.kt:38-57 | no servers gives "all servers failed"; the first answer that is not an HTTP 500 is the result |
| Fetcher.Tried | App/src/desktopMain/kotlin/dev/dubsky/aiko/api/AnimeFetcher.kt:39-50 | the requested URLs are the sources URLs of a prefix of the server list, in order |
| Fetcher.FallbackStep | App/src/desktopMain/kotlin/dev/dubsky/aiko/api/AnimeFetcher.kt:47-50 | one iteration: the first server's answer is final unless it is an HTTP 500, in which case the remaining servers are tried |
| Fetcher.TryServers | App/src/desktopMain/kotlin/dev/dubsky/aiko/api/AnimeFetcher.kt:39-56 | the loop over the servers returns `Resolve` and requests exactly `Tried` |
| Fetcher.GetStreamInfo | App/src/desktopMain/kotlin/dev/dubsky/aiko/api/AnimeFetcher.kt:38-57 | over the servers hd-1 and hd-2, the result is `Resolve` and the requests made are `Tried` |
| Fetcher.TriedServers | App/src/desktopMain/kotlin/dev/dubsky/aiko/api/AnimeFetcher.kt:39-50 | either only hd-1 is requested, or hd-1 and then hd-2 |
| Fetcher.SecondServerOnlyAfter500 | App/src/desktopMain/kotlin/dev/dubsky/aiko/api/AnimeFetcher.kt:49-50 | hd-2 is requested exactly when hd-1 answered HTTP 500 |
| Fetcher.ResolveCases | App/src/desktopMain/kotlin/dev/dubsky/aiko/api/AnimeFetcher.kt:38-57 | the result is hd-1's answer, else hd-2's answer, else "all servers failed" |
| Fetcher.ResolveFailure | App/src/desktopMain/kotlin/dev/dubsky/aiko/api/AnimeFetcher.kt:47-56 | a failure is either "all servers failed" or the non-retryable failure of one of the servers |
| AnimeDataApi.GetByFilter | App/src/desktopMain/kotlin/dev/dubsky/aiko/api/AnimeData.kt:78-113 | UNKNOWN season or status, an empty search and an empty genre list become absent arguments; every other argument passes through unchanged |
| AnimeDataApi.GetByFilterIdempotent | App/src/desktopMain/kotlin/dev/dubsky/aiko/api/AnimeData.kt:90-105 | normalising an already normal query gives it back unchanged |
| AnimeDataApi.BearerToken | App/src/desktopMain/kotlin/dev/dubsky/aiko/api/AnimeData.kt:20 | the stored token up to its first `&`, or the whole token when it has none |
| AnimeDataApi.AuthorizationHeader | App/src/desktopMain/kotlin/dev/dubsky/aiko/api/AnimeData.kt:21 | `Bearer ` followed by the token |
| AnimeDataApi.Intercept | App/src/desktopMain/kotlin/dev/dubsky/aiko/api/AnimeData.kt:17-27 | each request carries the header; it is sent a second time exactly when the first answer is 401, and the second answer is final |
| AnimeDataApi.NoSecondRetry | App/src/desktopMain/kotlin/dev/dubsky/aiko/api/AnimeData.kt:22-26 | two 401 answers in a row produce exactly two requests and report 401 |
| AnimeDataApi.UserListName | App/src/desktopMain/kotlin/dev/dubsky/aiko/api/AnimeData.kt:123-129 | the list request always names the user "Dubsky" |
| AnimeDataApi.UserListIgnoresConfig | App/src/desktopMain/kotlin/dev/dubsky/aiko/api/AnimeData.kt:125 | the configured user name has no effect on the request |
| Auth.CapturedToken | App/src/desktopMain/kotlin/dev/dubsky/aiko/api/auth/anilist/auth.kt:35-37 | the token is everything after the first `access_token=`, or empty when the query has none |
| Auth.CaptureAfterMarker | App/src/desktopMain/kotlin/dev/dubsky/aiko/api/auth/anilist/auth.kt:35-37 | a query of the form `access_token=T` yields T |
| Auth.EmptyCaptureStillNeedsAuth | App/src/desktopMain/kotlin/dev/dubsky/aiko/api/auth/anilist/auth.kt:66-78 | storing the capture of a query without a token leaves authentication still needed |
| Auth.DoAuth | App/src/desktopMain/kotlin/dev/dubsky/aiko/api/auth/anilist/auth.kt:66-83 | nothing changes when a token is already stored; otherwise the received token is stored and saved, and with no token nothing changes |
| AppVersion.CheckForUpdates | App/src/desktopMain/kotlin/dev/dubsky/aiko/config/AppVersion.kt:20-38 | an update is available exactly when the trimmed line sorts after "1.0.0"; up to date otherwise; any failure is an error carrying its message or "Unknown error"; never a beta result |
| AppVersion.PaddingIrrelevant | App/src/desktopMain/kotlin/dev/dubsky/aiko/config/AppVersion.kt:24 | whitespace around the fetched line does not change the verdict |
| AppVersion.NotNewerIsUpToDate | App/src/desktopMain/kotlin/dev/dubsky/aiko/config/AppVersion.kt:29-33 | an equal or lexicographically smaller version is reported as up to date |
| AppVersion.PrereleaseCountsAsNewer | App/src/desktopMain/kotlin/dev/dubsky/aiko/config/AppVersion.kt:30-31 | "1.0.0-rc1" is reported as an update over "1.0.0", because the comparison is on strings |
| Logging.LevelName | App/src/desktopMain/kotlin/dev/dubsky/aiko/logging/logger.kt:28 | a level prints as a bracket-free, colon-free name of at least four letters |
| Logging.LevelNameInjective | App/src/desktopMain/kotlin/dev/dubsky/aiko/logging/logger.kt:28 | different levels print differently |
| Logging.Timestamp | App/src/desktopMain/kotlin/dev/dubsky/aiko/logging/logger.kt:13 | `HH:mm:ss`: the digits read back as the hour, minute and second |
| Logging.TimestampIsNoLevel | App/src/desktopMain/kotlin/dev/dubsky/aiko/logging/logger.kt:13-28 | a timestamp is never a level name and holds no bracket |
| Logging.DateStamp | App/src/desktopMain/kotlin/dev/dubsky/aiko/logging/logger.kt:12 | `dd-MM-yyyy`: two digits reading as the day, a dash, two digits reading as the month, a dash, four digits reading as the year |
| Logging.LogFilePath | App/src/desktopMain/kotlin/dev/dubsky/aiko/logging/logger.kt:20-23 | the directory, `/`, the day's date stamp, then `.log` |
| Logging.LogFilePathInjective | App/src/desktopMain/kotlin/dev/dubsky/aiko/logging/logger.kt:20-23 | two different dates never share a log file |
| Logging.Entry | App/src/desktopMain/kotlin/dev/dubsky/aiko/logging/logger.kt:28 | one line `[ts] [LEVEL] [class]: message`, ending in a newline |
| Logging.Logger.constructor | App/src/desktopMain/kotlin/dev/dubsky/aiko/logging/logger.kt:11-18 | the logger takes the logging flag from the configuration |
| Logging.Logger.Log | App/src/desktopMain/kotlin/dev/dubsky/aiko/logging/logger.kt:25-31 | with logging off no file changes; otherwise exactly today's file grows by the entry |
| Home.TopRated | App/src/desktopMain/kotlin/dev/dubsky/aiko/screens/HomeScreen.kt:75 | three items (all of them when there are fewer) taken from the list, best rated first, and no item left out is rated above one taken |
| Home.FirstTen | App/src/desktopMain/kotlin/dev/dubsky/aiko/screens/HomeScreen.kt:76-92 | the first ten mapped items, in order |
| Home.LoadHome | App/src/desktopMain/kotlin/dev/dubsky/aiko/screens/HomeScreen.kt:52-98 | the version is always checked; the lists are fetched only when the cache needs a refresh, and then both slots hold the first ten items and the top three are computed; otherwise the cache is unchanged; afterwards the cache is fresh until the seasonal entry expires |
| Home.Shown | App/src/desktopMain/kotlin/dev/dubsky/aiko/screens/HomeScreen.kt:125 | before any check the button shows "up to date" |
| Home.UpdateLabel | App/src/desktopMain/kotlin/dev/dubsky/aiko/screens/HomeScreen.kt:219-223 | "Update", "Beta" or "Up to date", each for exactly its results |
| Home.EnabledAfterCheck | App/src/desktopMain/kotlin/dev/dubsky/aiko/screens/HomeScreen.kt:209 | after a check the button is enabled exactly when an update is available or the check failed |
| Home.FailedCheckLooksUpToDate | App/src/desktopMain/kotlin/dev/dubsky/aiko/screens/HomeScreen.kt:209-223 | a failed check gives an enabled button labelled "Up to date" |
| LegacyHome.ToLegacyAnime | src/main/kotlin/dev/dubsky/aiko/screens/HomeScreen.kt:98-107 | the legacy card takes its id, title, rating and image from the medium when present, with the defaults "Unknown", 0 and "" |
| LegacyHome.ToLegacyList | src/main/kotlin/dev/dubsky/aiko/screens/HomeScreen.kt:95-107 | no response gives nothing; otherwise every non-null medium appears as its card, and every card comes from one |
| LegacyHome.ToLegacyListSingle | src/main/kotlin/dev/dubsky/aiko/screens/HomeScreen.kt:95-107 | a single response entry gives its card, or nothing when it is null |
| LegacyHome.ToLegacyListAppend | src/main/kotlin/dev/dubsky/aiko/screens/HomeScreen.kt:95-107 | mapping two responses joined gives the first's cards followed by the second's, so response order and repeats are kept |
| LegacyHome.LoadLegacyHome | src/main/kotlin/dev/dubsky/aiko/screens/HomeScreen.kt:109-120 | the top three are the three best-rated cards of the seasonal list, in descending order; "top seasonal" is items 3 to 12 of that list; "top airing" is the first ten airing cards |
| LegacyHome.CardRows | src/main/kotlin/dev/dubsky/aiko/screens/HomeScreen.kt:165 | rows of five cards whose concatenation is the list, and only the last row may be shorter |
| LegacyHome.TenItemsTwoRows | src/main/kotlin/dev/dubsky/aiko/screens/HomeScreen.kt:183 | ten cards make exactly two full rows |
| Browse.Columns | App/src/desktopMain/kotlin/dev/dubsky/aiko/screens/BrowseScreen.kt:70-80 | an even number from 2 to 10: 2 exactly below 600 px, 10 exactly from 1800 px |
| Browse.ColumnsMonotone | App/src/desktopMain/kotlin/dev/dubsky/aiko/screens/BrowseScreen.kt:70-80 | a wider window never shows fewer columns |
| Browse.Displayed | App/src/desktopMain/kotlin/dev/dubsky/aiko/screens/BrowseScreen.kt:82-91 | the loaded anime whose title contains the query, ignoring case, in order; an empty query shows all |
| Browse.DisplayName | App/src/desktopMain/kotlin/dev/dubsky/aiko/screens/BrowseScreen.kt:473-477 | every genre has a non-empty display name |
| Browse.ToggleGenre | App/src/desktopMain/kotlin/dev/dubsky/aiko/screens/BrowseScreen.kt:216-224 | a selected genre is removed once; an unselected one is appended at the end |
| Browse.ToggleKeepsNoDup | App/src/desktopMain/kotlin/dev/dubsky/aiko/screens/BrowseScreen.kt:216-224 | toggling keeps the selection free of duplicates and flips only that genre |
| Browse.RemoveAppended | App/src/desktopMain/kotlin/dev/dubsky/aiko/screens/BrowseScreen.kt:216-224 | removing a genre that was just appended restores the list |
| Browse.ToggleTwiceAbsent | App/src/desktopMain/kotlin/dev/dubsky/aiko/screens/BrowseScreen.kt:216-224 | selecting and then deselecting a genre gives the original list back |
| Browse.ToggleTwicePresent | App/src/desktopMain/kotlin/dev/dubsky/aiko/screens/BrowseScreen.kt:216-224 | deselecting and then reselecting a genre keeps the same genres, with that one moved to the end |
| Browse.Capitalize | App/src/desktopMain/kotlin/dev/dubsky/aiko/screens/BrowseScreen.kt:479 | first letter upper case, the rest lower case, length kept |
| Browse.CapitalizeIdempotent | App/src/desktopMain/kotlin/dev/dubsky/aiko/screens/BrowseScreen.kt:479 | capitalising twice is capitalising once |
| Browse.SeasonLabel | App/src/desktopMain/kotlin/dev/dubsky/aiko/screens/BrowseScreen.kt:479 | WINTER is shown as "Winter" |
| Browse.ScoreThreshold | App/src/desktopMain/kotlin/dev/dubsky/aiko/screens/BrowseScreen.kt:239-245 | each rating option is a multiple of ten from 0 to 90 |
| Browse.DefaultFilters | App/src/desktopMain/kotlin/dev/dubsky/aiko/screens/BrowseScreen.kt:463-471 | no season, status, year or genres; minimum rating 0; 20 results; empty search |
| Browse.RequestFor | App/src/desktopMain/kotlin/dev/dubsky/aiko/screens/BrowseScreen.kt:97-106 | page 1, the chosen size, adult titles excluded, the score threshold at ten times the rating, and each empty filter absent |
| Browse.BrowseState.constructor | App/src/desktopMain/kotlin/dev/dubsky/aiko/screens/BrowseScreen.kt:56-68 | nothing loaded, an empty search, the default filters |
| Browse.BrowseState.Redisplay | App/src/desktopMain/kotlin/dev/dubsky/aiko/screens/BrowseScreen.kt:82-90 | the displayed list is recomputed from the query and the loaded list, and nothing else changes |
| Browse.BrowseState.SetQuery | App/src/desktopMain/kotlin/dev/dubsky/aiko/screens/BrowseScreen.kt:82-91 | the new query is stored and the display is refreshed |
| Browse.BrowseState.ClickGenre | App/src/desktopMain/kotlin/dev/dubsky/aiko/screens/BrowseScreen.kt:216-224 | only the genre selection changes, by one toggle |
| Browse.BrowseState.LoadAnimeData | App/src/desktopMain/kotlin/dev/dubsky/aiko/screens/BrowseScreen.kt:93-131 | the request sent matches the filters; on success the list is replaced, the search is cleared and everything is shown; on failure the list is kept; loading always ends |
| ListScreen.StatusText | App/src/desktopMain/kotlin/dev/dubsky/aiko/screens/ListScreen.kt:48 | a missing status is the string "null" |
| ListScreen.ItemOf | App/src/desktopMain/kotlin/dev/dubsky/aiko/screens/ListScreen.kt:49-57 | a list row takes its id, title and episode count from the medium, and its score and progress from the entry |
| ListScreen.CategoryOf | App/src/desktopMain/kotlin/dev/dubsky/aiko/screens/ListScreen.kt:45-60 | a category keeps the status and maps every entry in order |
| ListScreen.ParseAnimeList | App/src/desktopMain/kotlin/dev/dubsky/aiko/screens/ListScreen.kt:45-60 | one category per list, in order |
| ListScreen.TableFor | App/src/desktopMain/kotlin/dev/dubsky/aiko/screens/ListScreen.kt:72-76 | the first table with that status, or an empty table under that status |
| ListScreen.ReorderedTables | App/src/desktopMain/kotlin/dev/dubsky/aiko/screens/ListScreen.kt:69-76 | exactly four tables, in the tab order CURRENT, COMPLETED, PLANNING, DROPPED |
| ListScreen.SelectedCategory | App/src/desktopMain/kotlin/dev/dubsky/aiko/screens/ListScreen.kt:126 | a tab index in 0..3 selects that tab's table, the first table with its status (or an empty one), with its entries; any other index selects none |
| ListScreen.SortedEntries | App/src/desktopMain/kotlin/dev/dubsky/aiko/screens/ListScreen.kt:143-159 | a permutation of the entries, sorted on the chosen column in the chosen direction; unsorted when no column is chosen |
| ListScreen.SortedEntriesStable | App/src/desktopMain/kotlin/dev/dubsky/aiko/screens/ListScreen.kt:143-159 | entries with equal keys keep their relative order |
| ListScreen.ClickAsWritten | App/src/desktopMain/kotlin/dev/dubsky/aiko/screens/ListScreen.kt:168-183 | the header handler as written: the clicked column becomes the sort column and the direction always flips, whichever column was sorted before |
| ListScreen.FirstClickDescends | App/src/desktopMain/kotlin/dev/dubsky/aiko/screens/ListScreen.kt:168-183 | as written, the first click on any header sorts descending, and switching columns while descending sorts ascending |
| ListScreen.Click | App/src/desktopMain/kotlin/dev/dubsky/aiko/screens/ListScreen.kt:168-183 | corrected: clicking the current column flips the direction, and a new column starts ascending |
| ListScreen.ClickTwiceRestores | App/src/desktopMain/kotlin/dev/dubsky/aiko/screens/ListScreen.kt:168-183 | clicking the same header twice restores the direction |
| ListScreen.ClickDiffersOnNewColumn | App/src/desktopMain/kotlin/dev/dubsky/aiko/screens/ListScreen.kt:168-183 | the corrected and the written handlers disagree exactly on switching columns while ascending |
| ListScreen.AnimeTable.constructor | App/src/desktopMain/kotlin/dev/dubsky/aiko/screens/ListScreen.kt:140-141 | a table starts unsorted |
| ListScreen.AnimeTable.HeaderClick | App/src/desktopMain/kotlin/dev/dubsky/aiko/screens/ListScreen.kt:168-183 | a header click applies the corrected toggle (see Findings and Left out) |
| ListScreen.AnimeTable.Rows | App/src/desktopMain/kotlin/dev/dubsky/aiko/screens/ListScreen.kt:143-159 | no entries give no rows; with no column chosen the rows are the entries in response order; otherwise they are a permutation of the entries sorted by the chosen column in the chosen direction |
| ListScreen.PlusOne | App/src/desktopMain/kotlin/dev/dubsky/aiko/screens/ListScreen.kt:278-296 | "+1" appears only on the first tab; it crashes on a missing progress or episode count, and logs an increment only below the episode count |
| ListScreen.SaveEdit | App/src/desktopMain/kotlin/dev/dubsky/aiko/screens/ListScreen.kt:347-354 | the copy handed to `updateEntry`: episodes and score take the entered numbers when they parse and are kept otherwise; id, title and progress are unchanged |
| ListScreen.SaveUneditedIsIdentity | App/src/desktopMain/kotlin/dev/dubsky/aiko/screens/ListScreen.kt:347-354 | saving the dialog without editing leaves the entry as it was |
| AnimeScreen.Stars | App/src/desktopMain/kotlin/dev/dubsky/aiko/screens/AnimeScreen.kt:35-46 | one yellow star per full ten points of rating |
| AnimeScreen.StarsOfScore | App/src/desktopMain/kotlin/dev/dubsky/aiko/screens/AnimeScreen.kt:35-46 | a score of 0 to 100 gives at most ten stars, equal to the score divided by ten, rounded down |
| AnimeScreen.AnimeScreenState.constructor | App/src/desktopMain/kotlin/dev/dubsky/aiko/screens/AnimeScreen.kt:160-173 | the error dialog starts hidden |
| AnimeScreen.AnimeScreenState.WatchClicked | App/src/desktopMain/kotlin/dev/dubsky/aiko/screens/AnimeScreen.kt:213-220 | the player opens exactly when the configuration is valid; otherwise the error dialog is shown |
| AnimeScreen.AnimeScreenState.DismissError | App/src/desktopMain/kotlin/dev/dubsky/aiko/screens/AnimeScreen.kt:160-173 | dismissing hides the dialog |
| AnimeScreen.WatchOnFirstStart | App/src/desktopMain/kotlin/dev/dubsky/aiko/screens/AnimeScreen.kt:213-220 | with the default configuration, "watch" shows the error instead of opening the player |
| Player.ProxyUrl | App/src/desktopMain/kotlin/dev/dubsky/aiko/screens/PlayerScreen.kt:53-59 | the proxy, `/`, the Base64 of `video\|referer` in UTF-8, then `.m3u8`; the middle decodes back to those bytes |
| Player.CombinedSplits | App/src/desktopMain/kotlin/dev/dubsky/aiko/screens/PlayerScreen.kt:53-59 | the proxy can split the payload back into video URL and referer when the video URL has no `\|` |
| Player.PlayableStream | App/src/desktopMain/kotlin/dev/dubsky/aiko/screens/PlayerScreen.kt:91-95 | no stream exactly when the request failed or gave no sources; otherwise the first source, through the proxy when one is set |
| Player.SubtitleUrl | App/src/desktopMain/kotlin/dev/dubsky/aiko/screens/PlayerScreen.kt:61-67 | the file of the first English caption track, or none when there is none |
| Player.NonCaptionNeverChosen | App/src/desktopMain/kotlin/dev/dubsky/aiko/screens/PlayerScreen.kt:61-67 | a track that is not a caption is never the chosen subtitle |
| Player.FormatTime | App/src/desktopMain/kotlin/dev/dubsky/aiko/screens/PlayerScreen.kt:322-326 | `mm:ss`: minutes modulo 60 and seconds modulo 60, two digits each |
| Player.FormatTimeDropsHours | App/src/desktopMain/kotlin/dev/dubsky/aiko/screens/PlayerScreen.kt:322-326 | one more hour shows the same text |
| Player.CurrentIndex | App/src/desktopMain/kotlin/dev/dubsky/aiko/screens/PlayerScreen.kt:233 | the first position of the current episode in the list, and -1 exactly when there is no list, no current episode, or it is not in the list |
| Player.PlayerState.constructor | App/src/desktopMain/kotlin/dev/dubsky/aiko/screens/PlayerScreen.kt:43-46 | no episodes, no current episode, no stream |
| Player.PlayerState.SetEpisodes | App/src/desktopMain/kotlin/dev/dubsky/aiko/screens/PlayerScreen.kt:77 | only the episode list changes |
| Player.PlayerState.SelectEpisode | App/src/desktopMain/kotlin/dev/dubsky/aiko/screens/PlayerScreen.kt:177 | only the current episode changes |
| Player.PlayerState.Previous | App/src/desktopMain/kotlin/dev/dubsky/aiko/screens/PlayerScreen.kt:232-237 | moves to the preceding episode when there is one, else nothing changes |
| Player.PlayerState.Next | App/src/desktopMain/kotlin/dev/dubsky/aiko/screens/PlayerScreen.kt:241-246 | moves to the following episode when there is one (the first episode when none is current), else nothing changes |
| Player.PlayerState.LoadStream | App/src/desktopMain/kotlin/dev/dubsky/aiko/screens/PlayerScreen.kt:85-122 | the stream becomes the playable URL when there is one, and is otherwise unchanged |
| LogViewer.TimestampField | App/src/desktopMain/kotlin/dev/dubsky/aiko/screens/LogViewerScreen.kt:162 | the parser recovers the timestamp of any logger line |
| LogViewer.LevelField | App/src/desktopMain/kotlin/dev/dubsky/aiko/screens/LogViewerScreen.kt:163 | the parser recovers the level |
| LogViewer.LevelPrefixOnlyIfEqual | App/src/desktopMain/kotlin/dev/dubsky/aiko/screens/LogViewerScreen.kt:164 | the class-name search hits the timestamp field only when the timestamp equals the level |
| LogViewer.ClassNameField | App/src/desktopMain/kotlin/dev/dubsky/aiko/screens/LogViewerScreen.kt:164 | the class name is recovered when the timestamp differs from the level |
| LogViewer.MessageField | App/src/desktopMain/kotlin/dev/dubsky/aiko/screens/LogViewerScreen.kt:165 | the message is recovered |
| LogViewer.ParseLineRoundTrip | App/src/desktopMain/kotlin/dev/dubsky/aiko/screens/LogViewerScreen.kt:161-181 | as written, parsing and rendering give back every line whose timestamp differs from its level |
| LogViewer.ClassNameMisparsed | App/src/desktopMain/kotlin/dev/dubsky/aiko/screens/LogViewerScreen.kt:162-165 | as written, a line whose timestamp equals its level gets that text as its class name |
| LogViewer.FixedClassNameField | App/src/desktopMain/kotlin/dev/dubsky/aiko/screens/LogViewerScreen.kt:164 | corrected: searching after the timestamp and level always finds the class name |
| LogViewer.ParseLineFixedRoundTrip | App/src/desktopMain/kotlin/dev/dubsky/aiko/screens/LogViewerScreen.kt:161-181 | corrected: parsing and rendering give back every bracket-free line |
| LogViewer.LoggerEntriesParse | App/src/desktopMain/kotlin/dev/dubsky/aiko/screens/LogViewerScreen.kt:161-166 | every line the logger writes parses back into its four fields, even as written |
| LogViewer.StyleOf | App/src/desktopMain/kotlin/dev/dubsky/aiko/screens/LogViewerScreen.kt:170-175 | INFO is green, WARN yellow, ERROR red, each exactly |
| LogViewer.FilterLogs | App/src/desktopMain/kotlin/dev/dubsky/aiko/screens/LogViewerScreen.kt:116-117 | the shown files are exactly those whose name contains the filter, ignoring case, each as often as listed |
| LogViewer.FilterLogsAppend | App/src/desktopMain/kotlin/dev/dubsky/aiko/screens/LogViewerScreen.kt:116-117 | filtering two lists joined gives the first's matches followed by the second's, so the listed order is kept |
| LogViewer.EmptyFilterKeepsAll | App/src/desktopMain/kotlin/dev/dubsky/aiko/screens/LogViewerScreen.kt:116-117 | an empty filter shows every file, in order |
| LogViewer.OrderLogFiles | App/src/desktopMain/kotlin/dev/dubsky/aiko/screens/LogViewerScreen.kt:25 | the same files, in descending name order |
| LogViewer.InitialSelection | App/src/desktopMain/kotlin/dev/dubsky/aiko/screens/LogViewerScreen.kt:26 | nothing when there are no files, otherwise the greatest name |
| Entry.WindowSizeFor | App/src/desktopMain/kotlin/dev/dubsky/aiko/Entry.kt:40-41 | 1920x1080 exactly for "WQHD", 1280x720 for anything else |
| Entry.ResolutionFor | App/src/desktopMain/kotlin/dev/dubsky/aiko/screens/SettingsScreen.kt:61-84 | the two radio buttons save "FHD" and "WQHD"; other sizes have no setting |
| Entry.ChosenSizeSurvivesRestart | App/src/desktopMain/kotlin/dev/dubsky/aiko/Entry.kt:40-41 | the window size chosen in settings is the size of the next window |
| Entry.DefaultOpensFloating | App/src/desktopMain/kotlin/dev/dubsky/aiko/Entry.kt:40-41 | a first start opens a 1280x720 window |
| Entry.OnKey | App/src/desktopMain/kotlin/dev/dubsky/aiko/Entry.kt:71-89 | Ctrl+X exits, Ctrl+S toggles the drawer unless it is animating, and everything else is not handled |
| Entry.ToggleMaximized | App/src/desktopMain/kotlin/dev/dubsky/aiko/Entry.kt:103-108 | the maximise button always changes the placement |
| Entry.MaximizeTwice | App/src/desktopMain/kotlin/dev/dubsky/aiko/Entry.kt:103-108 | pressing it twice restores the placement |
| Entry.ContentFor | App/src/desktopMain/kotlin/dev/dubsky/aiko/Entry.kt:160-194 | the anime and player screens show the selected anime, or nothing without one; other screens show themselves |
| Entry.AppWindow.constructor | App/src/desktopMain/kotlin/dev/dubsky/aiko/Entry.kt:40-48 | the window opens floating at the configured size on the home screen, with the drawer closed and no selection |
| Entry.AppWindow.Content | App/src/desktopMain/kotlin/dev/dubsky/aiko/Entry.kt:160-194 | the visible content follows the active screen and the selection |
| Entry.AppWindow.KeyEvent | App/src/desktopMain/kotlin/dev/dubsky/aiko/Entry.kt:71-89 | the key is consumed exactly when handled; Ctrl+X exits; Ctrl+S flips the drawer; nothing else changes |
| Entry.AppWindow.MaximizeClicked | App/src/desktopMain/kotlin/dev/dubsky/aiko/Entry.kt:103-108 | flips the placement; every other window field stays |
| Entry.AppWindow.SettingsClicked | App/src/desktopMain/kotlin/dev/dubsky/aiko/Entry.kt:112-122 | flips the drawer; every other window field stays |
| Entry.AppWindow.SizeChosen | App/src/desktopMain/kotlin/dev/dubsky/aiko/screens/SettingsScreen.kt:61-84 | the window takes the size, and the matching resolution is saved so that the next start agrees; every other window field stays |
| Entry.AppWindow.CloseClicked | App/src/desktopMain/kotlin/dev/dubsky/aiko/Entry.kt:109-110 | closing exits; every other window field stays |
| Entry.AppWindow.MinimizeClicked | App/src/desktopMain/kotlin/dev/dubsky/aiko/Entry.kt:101-103 | minimises the window; every other window field stays |
| Entry.AppWindow.ScreenSelected | App/src/desktopMain/kotlin/dev/dubsky/aiko/Entry.kt:111 | the chosen screen becomes active; every other window field stays |
| Entry.AppWindow.AnimeSelected | App/src/desktopMain/kotlin/dev/dubsky/aiko/Entry.kt:160-166 | choosing an anime selects it and shows its details; the window fields stay |
| Entry.AppWindow.PlayerRequested | App/src/desktopMain/kotlin/dev/dubsky/aiko/Entry.kt:170-177 | "watch" switches to the player and keeps the selection and the window fields |
| Entry.PickThenWatch | App/src/desktopMain/kotlin/dev/dubsky/aiko/Entry.kt:160-194 | choosing an anime and then watching plays that anime's id and title |
| LegacyEntry.LegacyWindowSize | src/main/kotlin/dev/dubsky/aiko/Entry.kt:15-16 | 1920 wide exactly from a 2560 px screen, 1080 high exactly from a 1440 px screen, else 1280 and 720 |
| LegacyEntry.MixedSize | src/main/kotlin/dev/dubsky/aiko/Entry.kt:15-16 | a 2560x1080 screen gets a 1920x720 window, which is neither standard size |
| LegacyEntry.ExitKeyAgrees | src/main/kotlin/dev/dubsky/aiko/Entry.kt:27-35 | the legacy Ctrl+X handler exits on exactly the keys on which the current window exits |
| Text.IndexOf | App/src/desktopMain/kotlin/dev/dubsky/aiko/api/auth/anilist/auth.kt:36 | the first occurrence of the delimiter, or none |
| Text.SubstringAfter | App/src/desktopMain/kotlin/dev/dubsky/aiko/api/auth/anilist/auth.kt:36 | the text after the first occurrence, or the given fallback |
| Text.SubstringBefore | App/src/desktopMain/kotlin/dev/dubsky/aiko/screens/LogViewerScreen.kt:162-165 | the text before the first occurrence, or the given fallback |
| Text.StrLessTransitive | App/src/desktopMain/kotlin/dev/dubsky/aiko/config/AppVersion.kt:30 | the string comparison is transitive |
| Text.StrLessTotal | App/src/desktopMain/kotlin/dev/dubsky/aiko/screens/LogViewerScreen.kt:25 | any two different strings are ordered |
| Text.TrimIgnoresPadding | App/src/desktopMain/kotlin/dev/dubsky/aiko/config/AppVersion.kt:24 | trimming ignores leading and trailing whitespace |
| Text.ParseIntToString | App/src/desktopMain/kotlin/dev/dubsky/aiko/screens/ListScreen.kt:347-354 | every 32-bit integer parses back from its decimal text |
| KotlinMath.TDiv | App/src/desktopMain/kotlin/dev/dubsky/aiko/screens/PlayerScreen.kt:322-326 | division rounds toward zero: the quotient times the divisor lies between 0 and the dividend, less than one divisor away from it |
| KotlinMath.TRem | App/src/desktopMain/kotlin/dev/dubsky/aiko/screens/PlayerScreen.kt:322-326 | the remainder of truncating division, with the dividend's sign |
| Seqs.Keep | App/src/desktopMain/kotlin/dev/dubsky/aiko/screens/BrowseScreen.kt:83-89 | the kept items are exactly those satisfying the test, each as often as before |
| Seqs.MapNotNullSingle | App/src/desktopMain/kotlin/dev/dubsky/aiko/screens/HomeScreen.kt:59 | `mapNotNull` of one element is its present result, or nothing |
| Seqs.MapNotNullAppend | App/src/desktopMain/kotlin/dev/dubsky/aiko/screens/HomeScreen.kt:59 | `mapNotNull` distributes over concatenation, which fixes order and multiplicity |
| Seqs.Chunked | src/main/kotlin/dev/dubsky/aiko/screens/HomeScreen.kt:165 | the chunks concatenate to the list, and all but the last are full |
| Seqs.RemoveFirst | App/src/desktopMain/kotlin/dev/dubsky/aiko/screens/BrowseScreen.kt:218-219 | removing drops one copy of the item, or nothing when it is absent |
| Sorting.Sort | App/src/desktopMain/kotlin/dev/dubsky/aiko/screens/ListScreen.kt:143-159 | a sorted permutation of the input |
| Sorting.SortStable | App/src/desktopMain/kotlin/dev/dubsky/aiko/screens/ListScreen.kt:143-159 | items with equal keys stay in their original order |
| Sorting.NullsFirst | App/src/desktopMain/kotlin/dev/dubsky/aiko/screens/ListScreen.kt:143-159 | sorting ascending puts entries without a value first |
| Sorting.NullsLast | App/src/desktopMain/kotlin/dev/dubsky/aiko/screens/ListScreen.kt:143-159 | sorting descending puts entries without a value last |
| Base64.DecodeEncode | App/src/desktopMain/kotlin/dev/dubsky/aiko/screens/PlayerScreen.kt:53-59 | decoding the Base64 text gives back the bytes |
| Base64.Utf8Append | App/src/desktopMain/kotlin/dev/dubsky/aiko/screens/PlayerScreen.kt:53-59 | the UTF-8 of a concatenation is the concatenation of the UTF-8 |

## Left out

- Floating point: the rating threshold and scores are modelled as integers.
  - `minRating` is a whole number of stars.
  - The list score is parsed like `toIntOrNull` rather than `toFloatOrNull`.
- Case folding, whitespace and decimal digits cover ASCII only, with no Unicode tables. Kotlin's `toIntOrNull` also accepts other Unicode decimal digits; `Text.ParseInt` rejects them.
- Strings are sequences of Unicode characters. Kotlin compares UTF-16 units, so `compareTo` can differ from the model for characters outside the Basic Multilingual Plane.
- Integers are unbounded, and 64-bit timestamps are not wrapped. Only the 32-bit
  range of `toIntOrNull` is modelled.
- I/O, time and randomness enter as parameters:
  - the clock and the calendar date;
  - the HTTP, GraphQL and OAuth responses;
  - the contents of the TOML file and of the log directory.
- The TOML encoding of `AppConfig` is abstracted away: the file is modelled as the stored value.
- Apollo's generated code is not part of this model.
  - `getTopAnime`, `getTopAiringAnime`, `getTopAiringAnimeBySeason` and `GetUserInfo` only pass their arguments to Apollo. Of `GetUserAnimeList`, only its fixed user name is modelled.
  - `Media` is modelled as a record of the fields the core reads.
- The `URLEncoder` output and Gson's parsing are parameters. `parse` stands for `Gson.fromJson` and may fail.
- The local OAuth callback server, its polling loop, and opening the browser are not part of this model.
  - `DoAuth` receives the server's final answer.
  - `startLocalServer` waits until a token arrives, so it never returns null. `DoAuth` still takes its answer as an `Option` and models the null branch at auth.kt:80-82.
- A `readLine()` of null while checking the version is modelled as a failed fetch.
- Genres are sent as a list. How that list is joined into a string is left out.
- `VersionCheckResult` has one more variant here, `BetaVersion`. The home screen reads it, but `AppVersion` never produces it (proved).
- The configuration's `Proxy`, `Refer` and `Logging` properties are treated as the `proxy`, `refer` and `logging` fields.
- Compose rendering, animations, the vlcj media player, volume and mute are left out.
  - The drawer's animation enters only as the "animating" flag.
- The legacy window's settings screen, `ProfileScreen`, `Composer` and `VersionRow` are not part of this model.
- The loop of `Fetcher.GetStreamInfo` over the two servers sits in `TryServers`, which takes any server list.
- Player.PlayerState.LoadStream: the subtitle and track selection on the media player is left out. Only the chosen URL is modelled, through `SubtitleUrl`.
- The "+1" button (`ListScreen.PlusOne`) only writes a log line and never changes the progress. The model returns which log line, or the crash.
- Logging.Logger.Log: the file system is a map from path to contents. Directory creation is not modelled.
- Logging.DateStamp: years are limited to 1000..9999, the four-digit range. `SimpleDateFormat("yyyy")` zero-pads earlier years and prints later ones in full; those dates are not modelled.
- Fetcher.ExecuteGetRequest: a base URL that is not http(s) makes OkHttp's `Request.Builder().url(url)` throw `IllegalArgumentException` before any request, outside the `try`. That exception escapes `searchAnime`, `getEpisodeList` and `getStreamInfo` instead of becoming a failed result, and no server fallback follows. The model does not cover it: every `Exchange` is a response or an `IOException`.
- ListScreen.AnimeTable.HeaderClick: follows the corrected toggle `ListScreen.Click`, not the handler as written, which always negates the direction. The as-written handler is `ListScreen.ClickAsWritten`, and `ListScreen.FirstClickDescends` shows where the two part (see Findings).
- ListScreen.SaveEdit: computes the edited copy only. The Save button passes that copy to `updateEntry`, whose body is empty (ListScreen.kt:368-370), so saving changes no entry of the list.
- The `Logger.log` calls of `AnimeFetcher` are left out of the fetcher model: they only write log lines, which `Logging.Logger.Log` models on its own.

## Findings

| source | as written | input that shows it | evidently intended | confidence | as-written member | corrected member |
|---|---|---|---|---|---|---|
| App/src/desktopMain/kotlin/dev/dubsky/aiko/screens/LogViewerScreen.kt:162-165 | the class name is taken after the first `[level] [` from the start of the line, which can fall inside the timestamp field | the line `[A] [A] [B]: x` parses with class name `A` | take the class name after `[timestamp] [level] [` | not executed | LogViewer.ClassNameMisparsed | LogViewer.ParseLineFixedRoundTrip |
| App/src/desktopMain/kotlin/dev/dubsky/aiko/screens/ListScreen.kt:168-183 | a header click sets the direction to the negation of the old direction even when the column changes | the first click on any header sorts descending; clicking another column while descending sorts ascending | a new column starts ascending, and the same column flips | not executed | ListScreen.FirstClickDescends | ListScreen.ClickTwiceRestores |
