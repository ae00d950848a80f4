/**
 * The dashboard's list-state controller (src/pages/Dashboard.js): the React
 * state it keeps and the effects and handlers that change it, each one run
 * to completion (a fetch and the answers it awaits form one step).
 */
module Dashboard {
  import opened Wrappers
  import opened Text
  import opened Http
  import opened Resources
  import opened DashboardQuery
  import Media
  import Seqs

  /** The six trash, restore and permanent-delete actions. */
  datatype Mutation =
    | TrashFile | RestoreFile | DeleteFile
    | TrashFolder | RestoreFolder | DeleteFolder

  /** The request each action sends for entry `id`. */
  function MutationRequest(kind: Mutation, id: string): (r: Request)
    ensures r.body == NoBody && r.url.params == []
    ensures kind in {TrashFile, DeleteFile, TrashFolder, DeleteFolder} <==> r.verb == DELETE
    ensures kind in {RestoreFile, RestoreFolder} <==> r.verb == POST
  {
    match kind
    case TrashFile => Request(DELETE, Url("/files/" + id, []), NoBody)
    case RestoreFile => Request(POST, Url("/files/" + id + "/restore", []), NoBody)
    case DeleteFile => Request(DELETE, Url("/files/" + id + "/permanent", []), NoBody)
    case TrashFolder => Request(DELETE, Url("/folders/" + id, []), NoBody)
    case RestoreFolder => Request(POST, Url("/folders/" + id + "/restore", []), NoBody)
    case DeleteFolder => Request(DELETE, Url("/folders/" + id + "/permanent", []), NoBody)
  }

  /** The alert shown when an action's response is not ok. */
  function MutationFailure(kind: Mutation): string {
    match kind
    case TrashFile => "Failed to trash file"
    case RestoreFile => "Failed to restore file"
    case DeleteFile => "Failed to permanently delete file"
    case TrashFolder => "Failed to trash folder"
    case RestoreFolder => "Failed to restore folder"
    case DeleteFolder => "Failed to permanently delete folder"
  }

  /** The message an awaited request that did not succeed turns into. */
  function FailureMessage<T>(reply: Reply<T>, notOkMessage: string): string {
    match reply
    case NetworkError(m) => m
    case _ => notOkMessage
  }

  /**
   * A fetch whose requests went out but whose replies have not been applied
   * yet: the plan it sent and the page its closure captured.
   */
  datatype InFlight = InFlight(plan: Plan, page: int)

  const CreateFolderFailed := "Failed to create folder"
  /** What reading `session.access_token` on a null session throws. */
  const NoSessionTypeError := "Cannot read properties of null (reading 'access_token')"

  class Controller {
    // view coordinates and session
    var view: View
    var session: Option<string>   // the access token of the current session, if any
    // list state
    var folders: seq<Entry>
    var files: seq<Entry>
    var page: nat
    var hasMore: bool
    var error: Option<string>
    var refreshToggle: bool
    var pending: seq<InFlight>   // fetches sent in an earlier commit, not applied yet
    // folder creation
    var newFolderName: string
    var creatingFolder: bool
    // what the component has done to the outside world
    var sent: seq<Request>
    var alerts: seq<string>
    var navigations: seq<string>

    /** `page` starts at 1 and is only ever reset to 1 or incremented. */
    ghost predicate Valid()
      reads this
    {
      page >= 1
    }

    /** The fields a fetch writes. */
    function Lists(): ListState
      reads this
    {
      ListState(folders, files, hasMore, error)
    }

    /** The state after the first render for route parameter `folderIdParam`. */
    constructor (folderIdParam: Option<string>)
      ensures Valid()
      ensures view == InitialView(folderIdParam) && session == None
      ensures folders == [] && files == [] && page == 1 && hasMore && error == None && !refreshToggle
      ensures newFolderName == "" && !creatingFolder
      ensures sent == [] && alerts == [] && navigations == [] && pending == []
    {
      view := InitialView(folderIdParam);
      session := None;
      folders, files := [], [];
      page, hasMore, error, refreshToggle := 1, true, None, false;
      newFolderName, creatingFolder := "", false;
      sent, alerts, navigations := [], [], [];
      pending := [];
    }

    /**
     * A change of view coordinates (route, search bar, sort controls or
     * sidebar). The reset effect runs only when one of its dependencies
     * changed: a change of media type alone keeps the list as it is.
     *
     * The reset's setters only take effect at the next render, so in the
     * commit of the change the fetch effect already runs with the new
     * coordinates and the page that was current before. On page 1 that is
     * the ordinary fetch (`FetchData` right after). On a later page it sends
     * that later page for the new coordinates, and the re-render with page 1
     * fetches again: this method sends the first of the two and leaves it
     * pending, and `LandPending` applies its replies whenever they arrive.
     */
    method SetView(next: View)
      requires Valid()
      modifies this`view, this`folders, this`files, this`page, this`hasMore, this`sent, this`pending
      ensures Valid()
      ensures view == next
      ensures ResetKey(next) != ResetKey(old(view)) ==>
        folders == [] && files == [] && page == 1 && hasMore
      ensures ResetKey(next) == ResetKey(old(view)) ==>
        folders == old(folders) && files == old(files) && page == old(page) && hasMore == old(hasMore)
      ensures ResetKey(next) != ResetKey(old(view)) ==> old(session).Some? ==> old(page) != 1 ==>
        && sent == old(sent) + PlanRequests(FetchPlan(next, old(page)))
        && pending == old(pending) + [InFlight(FetchPlan(next, old(page)), old(page))]
      ensures ResetKey(next) == ResetKey(old(view)) || old(session).None? || old(page) == 1 ==>
        sent == old(sent) && pending == old(pending)
    {
      var reset := ResetKey(next) != ResetKey(view);
      var stalePage := page;
      view := next;
      if reset {
        if session.Some? && stalePage != 1 {
          SendStale(FetchPlan(next, stalePage), stalePage);
        }
        folders := [];
        files := [];
        page := 1;
        hasMore := true;
      }
    }

    /** Send a fetch's requests and leave it pending. */
    method SendStale(plan: Plan, stalePage: int)
      modifies this`sent, this`pending
      ensures sent == old(sent) + PlanRequests(plan)
      ensures pending == old(pending) + [InFlight(plan, stalePage)]
    {
      sent := sent + PlanRequests(plan);
      pending := pending + [InFlight(plan, stalePage)];
    }

    /**
     * The replies of pending fetch `i` arrive: the fetch's own closure
     * applies them, merging by the page it captured.
     */
    method LandPending(i: nat, gw: Gateway)
      requires Valid() && i < |pending|
      modifies this`folders, this`files, this`hasMore, this`error, this`pending
      ensures Valid()
      ensures Lists() == AfterFetch(old(Lists()), RunPlan(old(pending)[i].plan, gw), old(pending)[i].page)
      ensures pending == old(pending)[..i] + old(pending)[i + 1..]
    {
      var landed := pending[i];
      pending := pending[..i] + pending[i + 1..];
      Store(AfterFetch(Lists(), RunPlan(landed.plan, gw), landed.page));
    }

    /** The session resolved or changed; `None` is a signed-out user. */
    method SetSession(token: Option<string>)
      requires Valid()
      modifies this`session
      ensures Valid() && session == token
    {
      session := token;
    }

    /**
     * The fetch effect (`fetchData`). Without a session nothing happens.
     * Otherwise the plan for the current view and page is sent; a failure
     * records its message and leaves the lists and `hasMore` alone; a
     * success merges the page (replace on page 1, append after), sets
     * `hasMore` to whether the page came back full, and clears the error.
     */
    method FetchData(gw: Gateway)
      requires Valid()
      modifies this`sent, this`folders, this`files, this`hasMore, this`error
      ensures Valid()
      ensures old(session).None? ==> sent == old(sent) && Lists() == old(Lists())
      ensures old(session).Some? ==>
        && sent == old(sent) + PlanRequests(FetchPlan(view, page))
        && Lists() == AfterFetch(old(Lists()), RunPlan(FetchPlan(view, page), gw), page)
      ensures Offset(page) >= 0   // the page never drops below 1, so no offset sent is negative
    {
      if session.None? {
        return;
      }
      var plan := FetchPlan(view, page);
      sent := sent + PlanRequests(plan);
      Store(AfterFetch(Lists(), RunPlan(plan, gw), page));
    }

    /** The four state setters the fetch effect calls. */
    method Store(next: ListState)
      requires Valid()
      modifies this`folders, this`files, this`hasMore, this`error
      ensures Valid() && Lists() == next
    {
      folders, files, hasMore, error := next.folders, next.files, next.hasMore, next.error;
    }

    /** The scroll listener: near the bottom with more pages to come, ask for the next page. */
    method HandleScroll(nearBottom: bool)
      requires Valid()
      modifies this`page
      ensures Valid()
      ensures page == if nearBottom && hasMore then old(page) + 1 else old(page)
    {
      if nearBottom && hasMore {
        page := page + 1;
      }
    }

    /** `refreshFiles` and `handleUploadSuccess`: flip the refresh toggle. */
    method Refresh()
      requires Valid()
      modifies this`refreshToggle
      ensures Valid()
      ensures refreshToggle == !old(refreshToggle)
    {
      refreshToggle := !refreshToggle;
    }

    /**
     * One of the six trash, restore and delete handlers. Without a session
     * nothing happens; otherwise the request is sent, and a success flips
     * the refresh toggle once while a failure raises an alert. The lists
     * are never touched here: the refresh re-fetches them.
     */
    method ApplyMutation(kind: Mutation, id: string, reply: Reply<()>)
      requires Valid()
      modifies this`sent, this`refreshToggle, this`alerts
      ensures Valid()
      ensures old(session).None? ==> unchanged(this)
      ensures old(session).Some? ==>
        && sent == old(sent) + [MutationRequest(kind, id)]
        && (reply.Ok? ==> refreshToggle == !old(refreshToggle) && alerts == old(alerts))
        && (!reply.Ok? ==> refreshToggle == old(refreshToggle) &&
                           alerts == old(alerts) + [FailureMessage(reply, MutationFailure(kind))])
    {
      if session.None? {
        return;
      }
      sent := sent + [MutationRequest(kind, id)];
      if reply.Ok? {
        refreshToggle := !refreshToggle;
      } else {
        alerts := alerts + [FailureMessage(reply, MutationFailure(kind))];
      }
    }

    /**
     * `handleCreateFolder`. A blank name sends nothing. Otherwise the
     * trimmed name is posted with the cleaned folder id as parent; on
     * success the input is cleared and the app navigates to the new folder,
     * on failure an alert is raised. `creatingFolder` ends false either way.
     * With no session, reading the token throws inside the `try`, which
     * alerts the TypeError's message and sends nothing.
     */
    method CreateFolder(reply: Reply<Entry>)
      requires Valid()
      modifies this`sent, this`alerts, this`navigations, this`newFolderName, this`creatingFolder
      ensures Valid()
      ensures IsBlank(old(newFolderName)) ==> unchanged(this)
      ensures !IsBlank(old(newFolderName)) && old(session).None? ==>
        sent == old(sent) && alerts == old(alerts) + [NoSessionTypeError] &&
        navigations == old(navigations) && newFolderName == old(newFolderName)
      ensures !IsBlank(old(newFolderName)) && old(session).Some? ==>
        && sent == old(sent) + [Request(POST, Url("/folders", []),
                                        NewFolder(Trim(old(newFolderName)), CleanedFolderId(old(view).folderIdParam)))]
        && (reply.Ok? ==> newFolderName == "" && alerts == old(alerts) &&
                          navigations == old(navigations) + ["/folder/" + reply.body.id])
        && (!reply.Ok? ==> newFolderName == old(newFolderName) && navigations == old(navigations) &&
                           alerts == old(alerts) + [FailureMessage(reply, CreateFolderFailed)])
      ensures !IsBlank(old(newFolderName)) ==> !creatingFolder
    {
      TrimIsEmptyIffBlank(newFolderName);
      if Trim(newFolderName) == "" {
        return;
      }
      creatingFolder := true;
      if session.None? {
        alerts := alerts + [NoSessionTypeError];
      } else {
        var name := Trim(newFolderName);
        sent := sent + [Request(POST, Url("/folders", []), NewFolder(name, CleanedFolderId(view.folderIdParam)))];
        if reply.Ok? {
          newFolderName := "";
          navigations := navigations + ["/folder/" + reply.body.id];
        } else {
          alerts := alerts + [FailureMessage(reply, CreateFolderFailed)];
        }
      }
      creatingFolder := false;
    }

    /** The folders on screen: all of them under `'all'`, none otherwise. */
    function ShownFolders(): (r: seq<Entry>)
      reads this
      ensures view.mediaType == Media.All ==> r == folders
      ensures view.mediaType != Media.All ==> r == []
    {
      Media.VisibleFolders(folders, view.mediaType)
    }

    /**
     * The files on screen: `filteredFiles`, which keeps the listed files the
     * media-type callback accepts, each as often as it is listed, in list order.
     */
    function ShownFiles(): (r: seq<Entry>)
      reads this
      ensures |r| <= |files|
      ensures forall f :: f in r <==> f in files && Media.Keeps(view.mediaType, f)
      ensures forall f :: multiset(r)[f] == if Media.Keeps(view.mediaType, f) then multiset(files)[f] else 0
      ensures Seqs.IsSubsequence(r, files)
    {
      Media.FilteredFilesIsSubsequence(files, view.mediaType);
      Media.FilteredFiles(files, view.mediaType)
    }
  }
}
