/** The page-load dispatch of the `DOMContentLoaded` handler (main.js 15-48):
    the body's id and the URL's query parameters select at most one page
    loader, and the loaders that need a parameter run only when it is there. */
module Dispatch {
  import opened Wrappers

  /** The query string as `URLSearchParams` holds it: name/value pairs in
      order; a name may repeat. */
  type Params = seq<(string, string)>

  /** `params.get(key)`: the value of the first pair with that name, or null. */
  function Get(params: Params, key: string): (r: Option<string>)
    ensures r.Some? <==> exists i :: 0 <= i < |params| && params[i].0 == key
    ensures r.Some? ==> exists i :: (0 <= i < |params| && params[i] == (key, r.value)
                                     && forall j :: 0 <= j < i ==> params[j].0 != key)
  {
    if |params| == 0 then None
    else if params[0].0 == key then Some(params[0].1)
    else
      var r := Get(params[1..], key);
      assert forall i :: 1 <= i < |params| ==> params[i] == params[1..][i - 1];
      r
  }

  /** JavaScript truthiness of `params.get(key)`: null and "" are falsy. */
  predicate Truthy(v: Option<string>) {
    v.Some? && v.value != ""
  }

  /** The page loaders the dispatcher can call, with their arguments. */
  datatype Action =
    | LoadHomePage
    | LoadOngoingListPage(page: int)
    | LoadCompletePage(page: int)
    | LoadGenresPage
    /** Also shows `name` as the genre title (main.js 35). */
    | LoadAnimeByGenre(slug: string, name: string, page: int)
    | ShowDetail(slug: string)
    /** `title` is passed on even when absent. */
    | ShowPlayer(slug: string, title: Option<string>)

  /** The body ids for which some loader exists. */
  const LoaderPages: set<string> := {
    "home-page", "ongoing-list-page", "complete-page", "genres-page",
    "genre-result-page", "detail-page", "player-page"
  }

  /** Parameters a page kind cannot load without. */
  function RequiredParams(bodyId: string): set<string> {
    if bodyId == "genre-result-page" then {"slug", "name"}
    else if bodyId == "detail-page" || bodyId == "player-page" then {"slug"}
    else {}
  }

  /** The body id that leads to each loader. */
  function PageIdOf(a: Action): string {
    match a
    case LoadHomePage => "home-page"
    case LoadOngoingListPage(_) => "ongoing-list-page"
    case LoadCompletePage(_) => "complete-page"
    case LoadGenresPage => "genres-page"
    case LoadAnimeByGenre(_, _, _) => "genre-result-page"
    case ShowDetail(_) => "detail-page"
    case ShowPlayer(_, _) => "player-page"
  }

  /** The switch of main.js 15-48. `search-page` (left to the search box)
      and every other id dispatch nothing. */
  function Dispatch(bodyId: string, params: Params): (r: Option<Action>)
    ensures r.Some? <==> bodyId in LoaderPages && forall k :: k in RequiredParams(bodyId) ==> Truthy(Get(params, k))
    ensures r.Some? ==> PageIdOf(r.value) == bodyId
  {
    if bodyId == "home-page" then Some(LoadHomePage)
    else if bodyId == "ongoing-list-page" then Some(LoadOngoingListPage(1))
    else if bodyId == "complete-page" then Some(LoadCompletePage(1))
    else if bodyId == "genres-page" then Some(LoadGenresPage)
    else if bodyId == "genre-result-page" then
      var genreSlug, genreName := Get(params, "slug"), Get(params, "name");
      if Truthy(genreSlug) && Truthy(genreName) then Some(LoadAnimeByGenre(genreSlug.value, genreName.value, 1))
      else assert "slug" in RequiredParams(bodyId) && "name" in RequiredParams(bodyId); None
    else if bodyId == "detail-page" then
      var detailSlug := Get(params, "slug");
      if Truthy(detailSlug) then Some(ShowDetail(detailSlug.value))
      else assert "slug" in RequiredParams(bodyId); None
    else if bodyId == "player-page" then
      var episodeSlug, episodeTitle := Get(params, "slug"), Get(params, "title");
      if Truthy(episodeSlug) then Some(ShowPlayer(episodeSlug.value, episodeTitle))
      else assert "slug" in RequiredParams(bodyId); None
    else None
  }

  /** Loaders the dispatcher can produce: list pages start at page 1 and
      every required argument is non-empty. */
  predicate Dispatchable(a: Action) {
    match a
    case LoadOngoingListPage(page) => page == 1
    case LoadCompletePage(page) => page == 1
    case LoadAnimeByGenre(slug, name, page) => slug != "" && name != "" && page == 1
    case ShowDetail(slug) => slug != ""
    case ShowPlayer(slug, _) => slug != ""
    case _ => true
  }

  /** The query string a link to the loader would carry. */
  function ParamsOf(a: Action): Params {
    match a
    case LoadAnimeByGenre(slug, name, _) => [("slug", slug), ("name", name)]
    case ShowDetail(slug) => [("slug", slug)]
    case ShowPlayer(slug, title) =>
      if title.Some? then [("slug", slug), ("title", title.value)] else [("slug", slug)]
    case _ => []
  }

  /** Everything the dispatcher produces is a dispatchable loader whose
      arguments are the first values of the corresponding parameters. */
  lemma DispatchSound(bodyId: string, params: Params)
    requires Dispatch(bodyId, params).Some?
    ensures var a := Dispatch(bodyId, params).value;
      && Dispatchable(a)
      && (a.LoadAnimeByGenre? ==> Get(params, "slug") == Some(a.slug) && Get(params, "name") == Some(a.name))
      && (a.ShowDetail? ==> Get(params, "slug") == Some(a.slug))
      && (a.ShowPlayer? ==> Get(params, "slug") == Some(a.slug) && Get(params, "title") == a.title)
  {
  }

  /** Every dispatchable loader is reached from its own page id and query
      string. */
  lemma DispatchComplete(a: Action)
    requires Dispatchable(a)
    ensures Dispatch(PageIdOf(a), ParamsOf(a)) == Some(a)
  {
    match a
    case ShowPlayer(slug, title) =>
      assert "slug"[0] != "title"[0];
      if title.Some? {
        assert ParamsOf(a)[1..] == [("title", title.value)];
        assert Get(ParamsOf(a)[1..], "title") == title;
        assert Get(ParamsOf(a), "title") == title;
      }
    case LoadAnimeByGenre(slug, name, _) =>
      assert "slug"[0] != "name"[0];
      assert ParamsOf(a)[1..] == [("name", name)];
      assert Get(ParamsOf(a)[1..], "name") == Some(name);
      assert Get(ParamsOf(a), "name") == Some(name);
    case _ =>
  }

  /** The pages without parameters always load, regardless of the query:
      the list pages at page 1; the search page loads nothing. */
  lemma ListPagesLoadFirstPage(params: Params)
    ensures Dispatch("home-page", params) == Some(LoadHomePage)
    ensures Dispatch("ongoing-list-page", params) == Some(LoadOngoingListPage(1))
    ensures Dispatch("complete-page", params) == Some(LoadCompletePage(1))
    ensures Dispatch("genres-page", params) == Some(LoadGenresPage)
    ensures Dispatch("search-page", params) == None
  {
  }
}
