/**
 * The pure part of the dashboard's list controller (src/pages/Dashboard.js):
 * the view coordinates, the cleaned folder id, the offset, the choice between
 * the search query and the two listing queries, what the gateway's answers
 * turn into, and how a page is merged into the accumulated list.
 */
module DashboardQuery {
  import opened Wrappers
  import opened Text
  import opened Http
  import opened Resources

  /** The fixed page size (`const [limit] = useState(20)`). */
  const Limit: nat := 20

  /** The view coordinates: route parameter, search, sort, order, trash mode and media type. */
  datatype View = View(
    folderIdParam: Option<string>,
    searchTerm: string,
    sort: string,
    order: string,
    viewingTrash: bool,
    mediaType: string)

  /** The view the dashboard starts in for a given route parameter. */
  function InitialView(folderIdParam: Option<string>): View {
    View(folderIdParam, "", "name", "asc", false, "all")
  }

  /**
   * `cleanedFolderId`: a missing, empty, `'undefined'` or `'null'` route
   * parameter means the root (null); anything else is kept as it is.
   */
  function CleanedFolderId(folderIdParam: Option<string>): (r: Option<string>)
    ensures r.Some? ==> r == folderIdParam && r.value !in {"", "undefined", "null"}
    ensures folderIdParam.Some? && folderIdParam.value !in {"", "undefined", "null"} ==> r == folderIdParam
  {
    match folderIdParam
    case None => None
    case Some(id) => if id == "" || id == "undefined" || id == "null" then None else Some(id)
  }

  /** `cleanedFolderId ?? 'null'`: the folder as it travels in a query string. */
  function FolderParam(folderIdParam: Option<string>): string {
    CleanedFolderId(folderIdParam).GetOr("null")
  }

  /** The folder parameter reads `'null'` exactly when the route names no real folder. */
  lemma FolderParamNullExactlyForRoot(folderIdParam: Option<string>)
    ensures FolderParam(folderIdParam) == "null" <==>
      folderIdParam.None? || folderIdParam.value in {"", "undefined", "null"}
    ensures FolderParam(folderIdParam) != ""
  {
  }

  /** Cleaning is idempotent: a cleaned id passes through a second cleaning unchanged. */
  lemma CleanedFolderIdIdempotent(folderIdParam: Option<string>)
    ensures CleanedFolderId(CleanedFolderId(folderIdParam)) == CleanedFolderId(folderIdParam)
  {
  }

  /** `(page - 1) * limit`. */
  function Offset(page: int): int {
    (page - 1) * Limit
  }

  /** The queries one fetch issues: one unified search, or a folders and a files listing. */
  datatype Plan =
    | SearchPlan(url: Url)
    | ListPlan(foldersUrl: Url, filesUrl: Url, markTrashed: bool)

  function SearchUrl(v: View, page: int): (u: Url)
    ensures u.path == "/search"
    ensures Param(u, "q") == Some(Text(v.searchTerm))
    ensures Param(u, "limit") == Some(Number(Limit))
    ensures Param(u, "offset") == Some(Number(Offset(page)))
    ensures Param(u, "sort") == Some(Text(v.sort))
    ensures Param(u, "order") == Some(Text(v.order))
    ensures Param(u, "folder_id") == Some(Text(FolderParam(v.folderIdParam)))
  {
    var ps := [
      ("q", Text(v.searchTerm)),
      ("limit", Number(Limit)),
      ("offset", Number(Offset(page))),
      ("sort", Text(v.sort)),
      ("order", Text(v.order)),
      ("folder_id", Text(FolderParam(v.folderIdParam)))];
    ParamInAt(ps, 0); ParamInAt(ps, 1); ParamInAt(ps, 2);
    ParamInAt(ps, 3); ParamInAt(ps, 4); ParamInAt(ps, 5);
    Url("/search", ps)
  }

  function ListingUrl(path: string, folderKey: string, v: View, page: int): (u: Url)
    requires folderKey !in {"sort", "order", "limit", "offset"}
    ensures u.path == path
    ensures Param(u, folderKey) == Some(Text(FolderParam(v.folderIdParam)))
    ensures Param(u, "sort") == Some(Text(v.sort))
    ensures Param(u, "order") == Some(Text(v.order))
    ensures Param(u, "limit") == Some(Number(Limit))
    ensures Param(u, "offset") == Some(Number(Offset(page)))
  {
    var ps := [
      (folderKey, Text(FolderParam(v.folderIdParam))),
      ("sort", Text(v.sort)),
      ("order", Text(v.order)),
      ("limit", Number(Limit)),
      ("offset", Number(Offset(page)))];
    ParamInAt(ps, 0); ParamInAt(ps, 1); ParamInAt(ps, 2);
    ParamInAt(ps, 3); ParamInAt(ps, 4);
    Url(path, ps)
  }

  /** Lookup finds parameter `i` when no earlier parameter has its key. */
  lemma {:induction false} ParamInAt(ps: seq<(string, ParamValue)>, i: nat)
    requires i < |ps|
    requires forall j :: 0 <= j < i ==> ps[j].0 != ps[i].0
    ensures ParamIn(ps, ps[i].0) == Some(ps[i].1)
  {
    if i > 0 {
      ParamInAt(ps[1..], i - 1);
    }
  }

  /** `u` asks for the view's sort and order and for the page's window. */
  predicate CarriesPaging(u: Url, v: View, page: int) {
    && Param(u, "sort") == Some(Text(v.sort))
    && Param(u, "order") == Some(Text(v.order))
    && Param(u, "limit") == Some(Number(Limit))
    && Param(u, "offset") == Some(Number(Offset(page)))
  }

  /**
   * The query a fetch of `page` under `v` issues. A search term that is not
   * blank selects the search endpoint, which still receives the untrimmed
   * term; otherwise the trash listings (which take no parameters at all) or
   * the folder listings (folder, sort, order, limit, offset) are used.
   */
  function FetchPlan(v: View, page: int): (r: Plan)
    ensures r.SearchPlan? <==> Trim(v.searchTerm) != ""
    ensures r.SearchPlan? ==>
      && r.url.path == "/search"
      && Param(r.url, "q") == Some(Text(v.searchTerm))
      && Param(r.url, "limit") == Some(Number(Limit))
      && Param(r.url, "offset") == Some(Number(Offset(page)))
      && Param(r.url, "sort") == Some(Text(v.sort))
      && Param(r.url, "order") == Some(Text(v.order))
      && Param(r.url, "folder_id") == Some(Text(FolderParam(v.folderIdParam)))
    ensures r.ListPlan? ==> r.markTrashed == v.viewingTrash
    ensures r.ListPlan? && v.viewingTrash ==>
      r.foldersUrl == Url("/folders/trash", []) && r.filesUrl == Url("/files/trash", [])
    ensures r.ListPlan? && !v.viewingTrash ==>
      && r.foldersUrl.path == "/folders" && r.filesUrl.path == "/files"
      && Param(r.foldersUrl, "parent_folder_id") == Some(Text(FolderParam(v.folderIdParam)))
      && Param(r.filesUrl, "folder_id") == Some(Text(FolderParam(v.folderIdParam)))
      && CarriesPaging(r.foldersUrl, v, page) && CarriesPaging(r.filesUrl, v, page)
  {
    if Trim(v.searchTerm) != "" then
      SearchPlan(SearchUrl(v, page))
    else if v.viewingTrash then
      ListPlan(Url("/folders/trash", []), Url("/files/trash", []), true)
    else
      ListPlan(ListingUrl("/folders", "parent_folder_id", v, page), ListingUrl("/files", "folder_id", v, page), false)
  }

  /** The search branch is taken exactly when the term has a non-white-space character. */
  lemma SearchBranchIffNotBlank(v: View, page: int)
    ensures FetchPlan(v, page).SearchPlan? <==> !IsBlank(v.searchTerm)
  {
    TrimIsEmptyIffBlank(v.searchTerm);
  }

  /** The GET requests a plan sends, folders before files. */
  function PlanRequests(plan: Plan): seq<Request> {
    match plan
    case SearchPlan(u) => [Request(GET, u, NoBody)]
    case ListPlan(fu, fi, _) => [Request(GET, fu, NoBody), Request(GET, fi, NoBody)]
  }

  /** The body of a search response: either list may be missing. */
  datatype SearchBody = SearchBody(folders: Option<seq<Entry>>, files: Option<seq<Entry>>)

  /** The gateway as an oracle: what each GET of a URL answers. */
  datatype Gateway = Gateway(search: Url -> Reply<SearchBody>, list: Url -> Reply<seq<Entry>>)

  /** What a fetch produces: an error message, or the fetched folders and files. */
  datatype Outcome = Failed(message: string) | Loaded(folders: seq<Entry>, files: seq<Entry>)

  const SearchFailedMessage := "Failed to fetch search results"
  const ListingFailedMessage := "Failed to fetch folders or files"

  /** `{ ...entry, trashed: true }` for every entry of a trash listing. */
  function MarkTrashed(entries: seq<Entry>): (r: seq<Entry>)
    ensures |r| == |entries|
    ensures forall i :: 0 <= i < |r| ==> r[i] == entries[i].(trashed := Some(true))
  {
    if entries == [] then [] else [entries[0].(trashed := Some(true))] + MarkTrashed(entries[1..])
  }

  /**
   * The result of running a plan against the gateway. A rejected request
   * reports its own message (the folders request is checked first, as if it
   * rejected first); a response that is not ok reports the fixed message of
   * its branch; missing search lists become empty.
   */
  function RunPlan(plan: Plan, gw: Gateway): (r: Outcome)
    ensures plan.SearchPlan? ==> (r.Loaded? <==> gw.search(plan.url).Ok?)
    ensures plan.SearchPlan? && gw.search(plan.url).NotOk? ==> r == Failed(SearchFailedMessage)
    ensures plan.SearchPlan? && gw.search(plan.url).NetworkError? ==> r == Failed(gw.search(plan.url).message)
    ensures plan.SearchPlan? && gw.search(plan.url).Ok? ==>
      r.folders == gw.search(plan.url).body.folders.GetOr([]) && r.files == gw.search(plan.url).body.files.GetOr([])
    ensures plan.ListPlan? ==>
      (r.Loaded? <==> gw.list(plan.foldersUrl).Ok? && gw.list(plan.filesUrl).Ok?)
    ensures plan.ListPlan? && gw.list(plan.foldersUrl).NetworkError? ==>
      r == Failed(gw.list(plan.foldersUrl).message)
    ensures plan.ListPlan? && !gw.list(plan.foldersUrl).NetworkError? && gw.list(plan.filesUrl).NetworkError? ==>
      r == Failed(gw.list(plan.filesUrl).message)
    ensures plan.ListPlan? && !gw.list(plan.foldersUrl).NetworkError? && !gw.list(plan.filesUrl).NetworkError? ==>
      (gw.list(plan.foldersUrl).NotOk? || gw.list(plan.filesUrl).NotOk? ==> r == Failed(ListingFailedMessage))
    ensures plan.ListPlan? && r.Loaded? && !plan.markTrashed ==>
      r.folders == gw.list(plan.foldersUrl).body && r.files == gw.list(plan.filesUrl).body
    ensures plan.ListPlan? && r.Loaded? && plan.markTrashed ==>
      r.folders == MarkTrashed(gw.list(plan.foldersUrl).body) && r.files == MarkTrashed(gw.list(plan.filesUrl).body)
  {
    match plan
    case SearchPlan(u) =>
      (match gw.search(u)
       case NetworkError(m) => Failed(m)
       case NotOk(_) => Failed(SearchFailedMessage)
       case Ok(body) => Loaded(body.folders.GetOr([]), body.files.GetOr([])))
    case ListPlan(fu, fi, markTrashed) =>
      match (gw.list(fu), gw.list(fi))
      case (NetworkError(m), _) => Failed(m)
      case (_, NetworkError(m)) => Failed(m)
      case (Ok(fo), Ok(fs)) =>
        if markTrashed then Loaded(MarkTrashed(fo), MarkTrashed(fs)) else Loaded(fo, fs)
      case _ => Failed(ListingFailedMessage)
  }

  /** `page === 1 ? fetched : [...prev, ...fetched]`. */
  function Merge(prev: seq<Entry>, fetched: seq<Entry>, page: int): (r: seq<Entry>)
    ensures page == 1 ==> r == fetched
    ensures page != 1 ==> |r| == |prev| + |fetched| && r[..|prev|] == prev && r[|prev|..] == fetched
  {
    if page == 1 then fetched else prev + fetched
  }

  /** `fetchedFolders.length + fetchedFiles.length >= limit`. */
  predicate HasMore(folders: seq<Entry>, files: seq<Entry>) {
    |folders| + |files| >= Limit
  }

  /** The part of the controller's state that a fetch writes. */
  datatype ListState = ListState(folders: seq<Entry>, files: seq<Entry>, hasMore: bool, error: Option<string>)

  /**
   * The list state after a fetch of `page` with the given outcome: a failure
   * records its message and keeps everything else; a success merges both
   * lists, recomputes `hasMore` from the page's size and clears the error.
   */
  function AfterFetch(s: ListState, outcome: Outcome, page: int): (r: ListState)
    ensures outcome.Failed? ==> r == s.(error := Some(outcome.message))
    ensures outcome.Loaded? ==> r.error == None
    ensures outcome.Loaded? ==> (r.hasMore <==> |outcome.folders| + |outcome.files| >= Limit)
    ensures outcome.Loaded? && page == 1 ==> r.folders == outcome.folders && r.files == outcome.files
    ensures outcome.Loaded? && page != 1 ==>
      && |r.folders| == |s.folders| + |outcome.folders| && r.folders[..|s.folders|] == s.folders
      && r.folders[|s.folders|..] == outcome.folders
      && |r.files| == |s.files| + |outcome.files| && r.files[..|s.files|] == s.files
      && r.files[|s.files|..] == outcome.files
  {
    match outcome
    case Failed(m) => s.(error := Some(m))
    case Loaded(fo, fi) => ListState(Merge(s.folders, fo, page), Merge(s.files, fi, page), HasMore(fo, fi), None)
  }

  /** The dependencies of the reset effect (src/pages/Dashboard.js:97). */
  function ResetKey(v: View): (string, string, string, Option<string>, bool) {
    (v.searchTerm, v.sort, v.order, CleanedFolderId(v.folderIdParam), v.viewingTrash)
  }

  /**
   * The dependencies of the fetch effect (src/pages/Dashboard.js:187):
   * folder, session, refresh toggle, search, sort, order, page, offset,
   * limit and trash mode. The media type is not among them.
   */
  function FetchKey(v: View, session: Option<string>, refreshToggle: bool, page: int)
    : (Option<string>, Option<string>, bool, string, string, string, int, int, int, bool)
  {
    (CleanedFolderId(v.folderIdParam), session, refreshToggle, v.searchTerm, v.sort, v.order,
     page, Offset(page), Limit, v.viewingTrash)
  }

  /** Switching the media type neither resets the list nor triggers a fetch. */
  lemma MediaTypeChangeIsLocal(v: View, mediaType: string, session: Option<string>, toggle: bool, page: int)
    ensures ResetKey(v.(mediaType := mediaType)) == ResetKey(v)
    ensures FetchKey(v.(mediaType := mediaType), session, toggle, page) == FetchKey(v, session, toggle, page)
  {
  }

  /**
   * Flipping the refresh toggle triggers a fetch but no reset: the current
   * page is fetched again, and on a page after the first its entries are
   * appended a second time behind what is already listed.
   */
  lemma RefreshRefetchesWithoutReset(v: View, session: Option<string>, toggle: bool, page: int,
                                     listed: seq<Entry>, fetched: seq<Entry>)
    requires page > 1
    ensures FetchKey(v, session, !toggle, page) != FetchKey(v, session, toggle, page)
    ensures Merge(listed, fetched, page) == listed + fetched
  {
  }

  /**
   * A change of view coordinates on page `p` other than 1 fetches twice after
   * the reset: once with the old page (sent in the commit of the change) and
   * once with page 1. If page 1 lands first, the old page's entries are
   * appended behind it and `hasMore` follows the old page; if the old page
   * lands first, page 1 replaces it. Either way the error is cleared.
   */
  lemma StalePageAfterReset(error: Option<string>, p: int,
                            folders1: seq<Entry>, files1: seq<Entry>, foldersP: seq<Entry>, filesP: seq<Entry>)
    requires p != 1
    ensures AfterFetch(AfterFetch(ListState([], [], true, error), Loaded(folders1, files1), 1), Loaded(foldersP, filesP), p)
            == ListState(folders1 + foldersP, files1 + filesP, HasMore(foldersP, filesP), None)
    ensures AfterFetch(AfterFetch(ListState([], [], true, error), Loaded(foldersP, filesP), p), Loaded(folders1, files1), 1)
            == ListState(folders1, files1, HasMore(folders1, files1), None)
  {
  }

  /** Two raw route parameters that clean to the same id do not reset the list. */
  lemma EquivalentRootParamsDoNotReset(v: View)
    ensures ResetKey(v.(folderIdParam := Some("undefined"))) == ResetKey(v.(folderIdParam := Some("null")))
    ensures ResetKey(v.(folderIdParam := None)) == ResetKey(v.(folderIdParam := Some("")))
  {
  }

  /** The list built by fetching pages 1, 2, ... in order, each merged as the code merges it. */
  function MergePages(prev: seq<Entry>, pages: seq<seq<Entry>>, firstPage: int): seq<Entry>
    decreases |pages|
  {
    if pages == [] then prev else MergePages(Merge(prev, pages[0], firstPage), pages[1..], firstPage + 1)
  }

  function Concat(pages: seq<seq<Entry>>): seq<Entry> {
    if pages == [] then [] else pages[0] + Concat(pages[1..])
  }

  /**
   * Fetching pages 1..n in order leaves exactly their concatenation,
   * whatever was listed before: page 1 replaces, every later page appends.
   */
  lemma {:induction false} MergePagesFromFirstIsConcat(prev: seq<Entry>, pages: seq<seq<Entry>>)
    requires pages != []
    ensures MergePages(prev, pages, 1) == Concat(pages)
  {
    MergeLaterPagesAppends(pages[0], pages[1..], 2);
    assert Concat(pages) == pages[0] + Concat(pages[1..]);
  }

  lemma {:induction false} MergeLaterPagesAppends(prev: seq<Entry>, pages: seq<seq<Entry>>, firstPage: int)
    requires firstPage > 1
    ensures MergePages(prev, pages, firstPage) == prev + Concat(pages)
    decreases |pages|
  {
    if pages == [] {
      assert prev + [] == prev;
    } else {
      MergeLaterPagesAppends(prev + pages[0], pages[1..], firstPage + 1);
      assert prev + pages[0] + Concat(pages[1..]) == prev + (pages[0] + Concat(pages[1..]));
    }
  }
}
