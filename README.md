# naffnime front end: display and routing decisions

naffnime is a browser front end for an anime catalogue and streaming API.
Apart from network fetches and DOM writes, `main.js` makes a small set of
decisions. This project models them in Dafny and proves what they produce:

- **Pagination bar** (`renderPagination`). The record's `current_page`,
  `last_visible_page` and has-previous/has-next flags produce a Prev control,
  a window of page numbers and ellipses, and a Next control.
  `Pagination.RenderPagination` follows the source's steps in order: the
  pushes into `pagesToShow`, the `[...new Set(...)]` step, and one control
  per surviving token. It is proved equal to the specification function
  `Pagination.Controls`, and the lemmas state the window's properties.
- **View dispatch** (the `DOMContentLoaded` switch). The body id and the
  query string select at most one page loader (`Dispatch.Dispatch`).
- **Quality selection** (`showPlayer`). Keys like `"720p"` have their first
  `p` removed and are then parsed. `Math.max` picks the default quality.
  Each stream entry gives one source.
- **Download modal** (`showDownloadLinks`). Sections come from the cached
  episode record, MP4 before MKV, and there are two fallback messages. The
  `currentEpisodeData` cache is the field `Player.Session.currentEpisode`.
- **Card badges and bottom lines** (`renderAnimeGrid`), the blank-query guard
  of `performSearch`, and the dark-mode flag (`setupTheme`, `toggleDarkMode`)
  as a class over the body's class flag, the storage map and the button labels.

DOM elements become datatype values. A control's `target` is the page number
its click handler passes to the page-load callback.

Some behaviour follows the code rather than the usual account of it:

- With more than seven pages, every current page is pushed unless it is 1 or
  the last page, and those two are always present. So the current page is
  shown and marked active even when it lies outside `1..last`
  (`Pagination.ExactlyOneActive`, `Pagination.CurrentPageShown`). "No active
  page" happens only with 2..7 pages and an out-of-range current page
  (`Pagination.NoActiveOutOfRange`).
- For an in-range current page, no page number is ever pushed twice. The Set
  step's only effect is to drop the second `'...'`. See Findings.
- `params.get` returns the first value of a repeated name, and an empty
  value is falsy. So `?slug=` loads nothing.
- `setupTheme` only ever adds the `dark-mode` class. It never removes it.

## Model

| member | source | states |
|---|---|---|
| `Pagination.RenderPagination` | main.js:321-368 | The controls the function appends equal `Controls(p)`: nothing when hidden, otherwise Prev, one control per deduplicated token, and Next |
| `Pagination.PagesToShow` | main.js:335-346 | The conditional pushes and the counting loop build exactly `PushedTokens(c, last)` |
| `Pagination.SpreadSet` | main.js:348 | Filling a Set in order and spreading it gives the first-occurrence dedupe of the pushed tokens |
| `Sequences.DedupeSameElements` | main.js:348 | The Set step loses no value and invents none |
| `Sequences.DedupeNoDup` | main.js:348 | The Set step's output never repeats a value |
| `Sequences.DedupeOfDistinct` | main.js:348 | A token list without repetition passes through the Set step unchanged |
| `Sequences.DedupeSnoc` | main.js:348 | Adding one value keeps it exactly when it is new |
| `Pagination.NoControlsIffHidden` | main.js:322-325 | No controls at all exactly when the record is absent, `last_visible_page` is missing or 0, or it is at most 1 |
| `Pagination.SmallWindow` | main.js:336-337 | With 2..7 pages the tokens are exactly 1..last in ascending order, with no ellipsis |
| `Pagination.PushedCases` | main.js:338-346 | Closed form of the seven pushes for more than seven pages and an in-range current page, case by case |
| `Pagination.WindowCases` | main.js:338-348 | Closed form of the shown window after the Set step, for more than seven pages and an in-range current page |
| `Pagination.LargeWindow` | main.js:338-346 | With more than seven pages and 1 <= c <= last, the window starts with 1, ends with last, and has strictly ascending page numbers. It contains c, c-1 when c > 2 and c+1 when c < last-1, and has at most 6 tokens |
| `Pagination.WindowDistinct` | main.js:348 | For any inputs, no token of the window repeats, so no page number is shown twice and at most one ellipsis survives |
| `Pagination.SecondEllipsisDropped` | main.js:340-348 | For 3 < c < last-2 two ellipses are pushed (7 tokens) but the window shows 6 tokens, and the only ellipsis is the one after page 1 |
| `Pagination.ControlsShape` | main.js:327-367 | If anything is rendered, Prev comes first and Next last. Each is disabled exactly when its has-page flag is false, and each targets previous_page or next_page whatever its state |
| `Pagination.ControlsMiddle` | main.js:348-361 | Between Prev and Next, each ellipsis token becomes a non-button separator. Each number becomes a button that targets that number and is active exactly when it equals current_page |
| `Pagination.CurrentPageShown` | main.js:336-346 | With more than 7 pages the current page is always in the window. With 2..7 pages it is there exactly when 1 <= c <= last |
| `Pagination.ExactlyOneActive` | main.js:349-359 | Exactly one control is active, and it is current_page, when current_page is in range. With more than 7 pages this holds for every current_page |
| `Pagination.NoActiveOutOfRange` | main.js:336-357 | With 2..7 pages and an out-of-range current_page, no control is active |
| `Pagination.WindowGapsMarkedIff` | main.js:338-348 | As written, the window marks every gap with an ellipsis exactly when not 3 < c < last-2 |
| `Pagination.WindowAtFiftyOfHundred` | main.js:338-348 | Page 50 of 100 shows 1 … 49 50 51 100, with no ellipsis before 100 |
| `Pagination.IntendedIsPushed` | main.js:338-346 | For an in-range current page, collapsing only repeated page numbers leaves the pushes as they are |
| `Pagination.PushedOrdered` | main.js:338-346 | For an in-range current page, the pushed page numbers run from 1 to last in ascending order and include c |
| `Pagination.PushedGapsMarked` | main.js:338-346 | For an in-range current page, the pushes put an ellipsis exactly where page numbers are skipped |
| `Pagination.IntendedWindowGapsMarked` | main.js:338-346 | The corrected window keeps both ellipses, marks every gap, runs from 1 to last in ascending order and contains c |
| `Dispatch.Get` | main.js:32-33 | `params.get(key)` gives null exactly when no pair has that name. Otherwise it gives the value of the first such pair |
| `Dispatch.Dispatch` | main.js:15-48 | A loader runs exactly when the body id has one and every required parameter (slug and name for genre results, slug for detail and player) is present and non-empty. The loader belongs to that body id |
| `Dispatch.DispatchSound` | main.js:31-47 | Every dispatched loader starts list pages at page 1 and has non-empty required arguments. Its slug, name and title are the first values of those query parameters, and the title may be absent |
| `Dispatch.DispatchComplete` | main.js:15-48 | Every loader the switch can call is reached from its body id and its query string |
| `Dispatch.ListPagesLoadFirstPage` | main.js:16-30 | Home and genres always load. Ongoing and complete always load page 1. The search page loads nothing |
| `Player.IndexOf` | main.js:288 | The position of the first occurrence of the character, or the length when it is absent |
| `Player.RemoveFirst` | main.js:288 | `replace('p', '')` removes exactly the first 'p' and leaves a string without 'p' unchanged |
| `Player.DigitsPrefix` | main.js:288 | The longest run of leading ASCII digits, which `parseInt` reads |
| `Player.DecimalValueOfDecimal` | main.js:288 | Reading the decimal digits of n gives n back |
| `Player.QualityKeyRoundTrip` | main.js:288 | A key "<n>p" parses to the integer n |
| `Player.JsMax` | main.js:289 | `Math.max(...xs)` gives -Infinity for no arguments and NaN if any argument is NaN. Otherwise it gives an argument that no other argument exceeds |
| `Player.DefaultQualityIsHighest` | main.js:288-289 | For a non-empty stream map whose keys all parse, the default quality is one of the options and is at least every option |
| `Player.DefaultQualityDegenerate` | main.js:288-289 | An empty stream map gives -Infinity as the default. A key that does not parse gives NaN |
| `Player.SourcesFollowEntries` | main.js:291-295 | One source per entry, in order. Its src is the stream host followed by the entry's URL, its type is video/mp4, and its size is the entry's parsed quality |
| `Player.DefaultOfTwoKeys` | main.js:288-289 | Two keys "<a>p" and "<b>p" default to the larger of a and b |
| `Player.DefaultOf360And720` | main.js:288-289 | A map with 360p and 720p defaults to 720 |
| `Player.ProcessFormat` | main.js:380-392 | The nested loops produce one section for a present, non-empty list, one group per resolution and one link per provider, in order. Otherwise nothing |
| `Player.DownloadMessages` | main.js:378-398 | "Download links not available." exactly when there is no cached record or no download_urls. "No download links available." exactly when neither MP4 nor MKV has a non-empty list |
| `Player.DownloadSections` | main.js:380-395 | A format gets a section exactly when its list exists and is non-empty. MP4 comes first and MKV last. Resolutions and providers keep their order, and links keep their URL and provider |
| `Player.Session.constructor` | main.js:3 | The episode cache starts empty |
| `Player.Session.ShowPlayer` | main.js:279-319 | The fetched record is cached whatever it is. Without data or a stream list the view is the failure placeholder. Otherwise the options are the parsed keys, the default is their Math.max, and there is one source per entry |
| `Player.Session.ShowDownloadLinks` | main.js:370-399 | The modal body is built from the cached record, as `DownloadBody` describes |
| `Player.PlayThenDownload` | main.js:284-306 | The modal opened after the player shows the download links of the record the player fetched |
| `Grid.RatingText` | main.js:217 | An absent or empty rating reads "N/A". Any other rating is shown as it is |
| `Grid.BadgeByListing` | main.js:213-218 | ongoing and ongoing-list get the episode badge. search, genre and complete get the rating badge with its N/A fallback. Any other type gets no badge |
| `Grid.BottomByListing` | main.js:220-227 | search gets the genre names, ongoing and ongoing-list get release day and date, and complete gets the episode count. genre and unknown types get nothing |
| `Grid.RenderAnimeGrid` | main.js:204-238 | The grid is cleared and gets one card per anime, in order, for the listing type |
| `Grid.TrimStartEmptyIff` | main.js:117 | Trimming the start gives "" exactly for all-white-space strings. Otherwise the result starts with a non-white-space character |
| `Grid.TrimEndKeepsFirst` | main.js:117 | Trimming the end never removes a first character that is not white space |
| `Grid.TrimEmptyIff` | main.js:117 | `query.trim() === ''` exactly when every character is white space |
| `Grid.SearchGuard` | main.js:117-121 | A blank query shows the prompt. Any other query is searched for as typed |
| `Grid.SearchOutcomes` | main.js:117-127 | A blank query gives the prompt whatever was fetched. A failed or empty search names the query in its message. Otherwise there is one search card per result with its slug, genres and rating badge |
| `Grid.NarutoWithoutResults` | main.js:122-126 | "naruto" with no results shows `No results found for "naruto".` |
| `Theme.StoredRoundTrip` | main.js:69-81 | Storing the flag as text and reading it back with `=== 'true'` gives the flag |
| `Theme.ThemeDocument.constructor` | main.js:68-71 | A freshly loaded page, before setup, has no dark-mode class |
| `Theme.ThemeDocument.SetLabels` | main.js:73-75 | Every theme button gets the same label; nothing else changes |
| `Theme.ThemeDocument.SetupTheme` | main.js:68-76 | Storage is unchanged and the class is added when the stored flag is "true". Every button shows the sun when dark and the moon otherwise |
| `Theme.ThemeDocument.ToggleDarkMode` | main.js:78-85 | The class is flipped, the new state is stored as "true" or "false" with the rest of storage unchanged, the stored flag then agrees with the class, and the buttons are relabelled |
| `Theme.ToggleSurvivesReload` | main.js:68-85 | After a toggle and a reload the page comes up in the toggled mode, which is the opposite of the stored one |

## Left out

- `fetchData` and every network request are left out. A fetch's result is a parameter instead: the `data` passed to `Session.ShowPlayer` and `Grid.SearchView`.
- The page controllers (`loadHomePage`, `loadOngoingListPage`, `loadCompletePage`, `loadGenresPage`, `loadAnimeByGenre`, `showDetail`) are left out. Each is one fetch followed by a grid, pagination or detail rendering, and that rendering is what the model covers.
- The pagination callback's effect (reloading a page) is left out. A control only records the page it would pass.
- DOM construction is left out: `innerHTML` templates, CSS text, `classList` calls on buttons, `onclick` wiring, `window.location` navigation, setting the modal's title, showing the modal, and `closeModal`.
- The genre-result page's title text is left out. `LoadAnimeByGenre` carries the name that is shown there.
- The debounce of `setupEventListeners` is left out, because it is timer-driven. Out-of-order async responses are left out, because they are concurrency with no guard in the source.
- The Plyr player construction is left out, because the library is not part of this model. `PlayerReady` records the configuration the source passes to it.
- `encodeURIComponent` of the search query and `decodeURIComponent` of the episode title are left out. The title is kept as the raw parameter, and an absent title stays `None`, where the browser would show the text "null".
- `Player.ParseInt`: only a leading run of ASCII digits is read. Leading white space, a sign and hexadecimal prefixes are not modelled, and numbers are unbounded integers (no floating point).
- `Grid.RatingText`: a rating is a string, so the numeric 0 that JavaScript would also treat as falsy has no counterpart.
- Joining the genre names with ", " is left out. The card keeps the list of names.
- A field that is absent and rendered into a template as "undefined" is left out, as is a missing `genres` array on search results, which throws.
- The key order of `steramList` is taken as the sequence order of the entries. The model does not reorder keys the way JavaScript orders integer-like keys.
- Local storage persistence across reloads is not modelled as real storage. `Theme.ToggleSurvivesReload` passes the storage map from one page to the next.

## Findings

| source | as written | input that shows it | evidently intended | confidence | as-written member | corrected member |
|---|---|---|---|---|---|---|
| main.js:340-348 | Both `'...'` strings are pushed, and `[...new Set(pagesToShow)]` treats them as one value, so the ellipsis before the last page is dropped | current_page 50, last_visible_page 100 shows 1 … 49 50 51 100 | 1 … 49 50 51 … 100, with an ellipsis for every skipped range and only repeated page numbers collapsed | not executed; high | `Pagination.WindowGapsMarkedIff` | `Pagination.IntendedWindowGapsMarked` |

`Pagination.RenderPagination` and `Pagination.Controls` keep the behaviour as
written. `Pagination.IntendedWindow` is the corrected window, and
`Pagination.IntendedWindowGapsMarked` proves it marks every gap.
