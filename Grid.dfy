/** Anime cards (`renderAnimeGrid`, main.js 204-238) and the search page's
    guard and result view (`performSearch`, main.js 114-128). */
module Grid {
  import opened Wrappers

  /** One anime summary as the listing endpoints return it. Which fields a
      card shows depends on the listing type. */
  datatype Anime = Anime(
    title: string,
    poster: string,
    slug: string,
    rating: Option<string>,
    currentEpisode: string,
    releaseDay: string,
    newestReleaseDate: string,
    episodeCount: string,
    genreNames: seq<string>)

  /** The badge over the poster. */
  datatype Badge = NoBadge | EpisodeBadge(episode: string) | RatingBadge(rating: string)

  /** The line under the title. */
  datatype BottomInfo =
    | NoBottom
    | GenreList(names: seq<string>)
    | ReleaseInfo(day: string, date: string)
    | EpisodeTotal(count: string)

  /** A card; clicking it opens `detail.html?slug=<detailSlug>`. */
  datatype Card = Card(detailSlug: string, poster: string, title: string, badge: Badge, bottom: BottomInfo)

  /** Listing types whose cards show the current episode. */
  const EpisodeListings: set<string> := {"ongoing", "ongoing-list"}
  /** Listing types whose cards show the rating. */
  const RatingListings: set<string> := {"search", "genre", "complete"}

  /** `anime.rating || 'N/A'`: an absent or empty rating reads "N/A". */
  function RatingText(rating: Option<string>): (t: string)
    ensures t != ""
    ensures t == "N/A" || rating == Some(t)
    ensures rating.Some? && rating.value != "" ==> t == rating.value
  {
    if rating.Some? && rating.value != "" then rating.value else "N/A"
  }

  /** main.js 213-218 */
  function BadgeFor(kind: string, anime: Anime): Badge {
    if kind == "ongoing" || kind == "ongoing-list" then EpisodeBadge(anime.currentEpisode)
    else if kind == "search" || kind == "genre" || kind == "complete" then RatingBadge(RatingText(anime.rating))
    else NoBadge
  }

  /** main.js 220-227 */
  function BottomFor(kind: string, anime: Anime): BottomInfo {
    if kind == "search" then GenreList(anime.genreNames)
    else if kind == "ongoing" || kind == "ongoing-list" then ReleaseInfo(anime.releaseDay, anime.newestReleaseDate)
    else if kind == "complete" then EpisodeTotal(anime.episodeCount)
    else NoBottom
  }

  function CardFor(kind: string, anime: Anime): Card {
    Card(anime.slug, anime.poster, anime.title, BadgeFor(kind, anime), BottomFor(kind, anime))
  }

  /** Which badge a listing type gets, against the two tables: episode
      listings show the episode, rating listings the rating (with its "N/A"
      fallback), anything else nothing. */
  lemma BadgeByListing(kind: string, anime: Anime)
    ensures BadgeFor(kind, anime).EpisodeBadge? <==> kind in EpisodeListings
    ensures BadgeFor(kind, anime).RatingBadge? <==> kind in RatingListings
    ensures BadgeFor(kind, anime).NoBadge? <==> kind !in EpisodeListings + RatingListings
    ensures BadgeFor(kind, anime).EpisodeBadge? ==> BadgeFor(kind, anime).episode == anime.currentEpisode
    ensures BadgeFor(kind, anime).RatingBadge? ==> BadgeFor(kind, anime).rating == RatingText(anime.rating)
  {
  }

  /** Which bottom line a listing type gets: genres for search results,
      release day and date for ongoing listings, the episode count for
      complete series, and nothing for genre results or unknown types. */
  lemma BottomByListing(kind: string, anime: Anime)
    ensures BottomFor(kind, anime).GenreList? <==> kind == "search"
    ensures BottomFor(kind, anime).ReleaseInfo? <==> kind in EpisodeListings
    ensures BottomFor(kind, anime).EpisodeTotal? <==> kind == "complete"
    ensures BottomFor(kind, anime).NoBottom? <==> kind !in EpisodeListings + RatingListings || kind == "genre"
  {
  }

  /** The grid is emptied and one card appended per anime, in list order;
      nothing from an earlier rendering survives. */
  method RenderAnimeGrid(animeList: seq<Anime>, kind: string) returns (cards: seq<Card>)
    ensures |cards| == |animeList|
    ensures forall i :: 0 <= i < |animeList| ==> cards[i] == CardFor(kind, animeList[i])
  {
    cards := [];
    var i := 0;
    while i < |animeList|
      invariant 0 <= i <= |animeList|
      invariant |cards| == i
      invariant forall k :: 0 <= k < i ==> cards[k] == CardFor(kind, animeList[k])
    {
      var anime := animeList[i];
      var card := Card(anime.slug, anime.poster, anime.title, BadgeFor(kind, anime), BottomFor(kind, anime));
      cards := cards + [card];
      i := i + 1;
    }
  }

  // ---------------------------------------------------------------------
  // Search

  /** White space and line terminators as `String.prototype.trim` removes
      them (ECMAScript WhiteSpace and LineTerminator). */
  predicate IsJsWhitespace(ch: char) {
    || ch == '\t' || ch == '\n' || ch == '\U{B}' || ch == '\U{C}' || ch == '\r' || ch == ' '
    || ch == '\U{A0}' || ch == '\U{1680}' || ('\U{2000}' <= ch <= '\U{200A}')
    || ch == '\U{2028}' || ch == '\U{2029}' || ch == '\U{202F}' || ch == '\U{205F}'
    || ch == '\U{3000}' || ch == '\U{FEFF}'
  }

  predicate AllWhitespace(s: string) {
    forall i :: 0 <= i < |s| ==> IsJsWhitespace(s[i])
  }

  function TrimStart(s: string): string
    decreases |s|
  {
    if |s| > 0 && IsJsWhitespace(s[0]) then TrimStart(s[1..]) else s
  }

  function TrimEnd(s: string): string
    decreases |s|
  {
    if |s| > 0 && IsJsWhitespace(s[|s| - 1]) then TrimEnd(s[..|s| - 1]) else s
  }

  /** `s.trim()` */
  function Trim(s: string): string {
    TrimEnd(TrimStart(s))
  }

  lemma {:induction false} TrimStartEmptyIff(s: string)
    ensures TrimStart(s) == "" <==> AllWhitespace(s)
    ensures TrimStart(s) != "" ==> !IsJsWhitespace(TrimStart(s)[0])
    decreases |s|
  {
    if |s| > 0 && IsJsWhitespace(s[0]) {
      TrimStartEmptyIff(s[1..]);
      assert AllWhitespace(s) <==> AllWhitespace(s[1..]) by {
        assert forall i :: 1 <= i < |s| ==> s[i] == s[1..][i - 1];
      }
    }
  }

  /** Trimming the end never removes a first character that is not
      white space. */
  lemma {:induction false} TrimEndKeepsFirst(s: string)
    requires |s| > 0 && !IsJsWhitespace(s[0])
    ensures TrimEnd(s) != ""
    decreases |s|
  {
    if IsJsWhitespace(s[|s| - 1]) {
      TrimEndKeepsFirst(s[..|s| - 1]);
    }
  }

  /** A string trims to "" exactly when all of it is white space. */
  lemma TrimEmptyIff(s: string)
    ensures Trim(s) == "" <==> AllWhitespace(s)
  {
    TrimStartEmptyIff(s);
    if TrimStart(s) != "" {
      TrimEndKeepsFirst(TrimStart(s));
    }
  }

  /** What `performSearch` does before fetching (main.js 117-121). */
  datatype SearchStep = PromptForQuery | SearchFor(query: string)

  /** `!query || query.trim() === ''`: a blank query shows the prompt and
      fetches nothing; any other query is searched for as typed. */
  function SearchGuard(query: string): (r: SearchStep)
    ensures r == PromptForQuery <==> AllWhitespace(query)
    ensures r.SearchFor? ==> r.query == query
  {
    TrimEmptyIff(query);
    if query == "" || Trim(query) == "" then PromptForQuery else SearchFor(query)
  }

  /** The search grid: cards, or a placeholder message. */
  datatype GridView = Cards(cards: seq<Card>) | Placeholder(message: string)

  const EnterQuery: string := "Enter a query to search."

  /** `performSearch(query)` once the search endpoint has answered with
      `data` (None when the fetch failed; it is not consulted for a blank
      query). */
  function SearchView(query: string, data: Option<seq<Anime>>): GridView {
    match SearchGuard(query)
    case PromptForQuery => Placeholder(EnterQuery)
    case SearchFor(q) =>
      if data.Some? && |data.value| > 0 then
        Cards(seq(|data.value|, i requires 0 <= i < |data.value| => CardFor("search", data.value[i])))
      else Placeholder("No results found for \"" + q + "\".")
  }

  /** The three outcomes of a search: the prompt for a blank query; for any
      other query one search card per result, or, when the fetch failed or
      found nothing, a message naming the query. */
  lemma SearchOutcomes(query: string, data: Option<seq<Anime>>)
    ensures AllWhitespace(query) ==> SearchView(query, data) == Placeholder(EnterQuery)
    ensures !AllWhitespace(query) && (data.None? || data.value == []) ==>
      SearchView(query, data) == Placeholder("No results found for \"" + query + "\".")
    ensures !AllWhitespace(query) && data.Some? && data.value != [] ==>
      && SearchView(query, data).Cards?
      && |SearchView(query, data).cards| == |data.value|
      && forall i :: 0 <= i < |data.value| ==>
           SearchView(query, data).cards[i].detailSlug == data.value[i].slug
           && SearchView(query, data).cards[i].bottom == GenreList(data.value[i].genreNames)
           && SearchView(query, data).cards[i].badge == RatingBadge(RatingText(data.value[i].rating))
  {
  }

  /** The concrete case: "naruto" with no results. */
  lemma NarutoWithoutResults()
    ensures SearchView("naruto", Some([])) == Placeholder("No results found for \"naruto\".")
  {
    assert !IsJsWhitespace("naruto"[0]);
  }
}
