/**
 * The breadcrumb trail (src/components/Breadcrumbs.js): the folder path
 * fetched for the current folder, a root crumb put in front of it, and the
 * rendered trail in which every crumb but the last is a link.
 */
module Breadcrumbs {
  import opened Wrappers
  import opened Http

  /** One step of the path, as the gateway returns it. */
  datatype Crumb = Crumb(id: string, name: string)

  /** The crumb every trail starts with. */
  const Root := Crumb("dashboard", "Dashboard")

  /** `allCrumbs`: the root crumb followed by the fetched path in order. */
  function AllCrumbs(path: seq<Crumb>): (r: seq<Crumb>)
    ensures |r| == |path| + 1 >= 1
    ensures r[0] == Root && r[1..] == path
  {
    [Root] + path
  }

  /** Where a crumb links to: the dashboard for the id `dashboard`, the folder page otherwise. */
  function LinkTarget(id: string): (r: string)
    ensures id == "dashboard" ==> r == "/dashboard"
    ensures id != "dashboard" ==> r == "/folder/" + id
  {
    if id == "dashboard" then "/dashboard" else "/folder/" + id
  }

  /** One rendered crumb: its text, its link target if it is a link, and whether a `>` follows it. */
  datatype Item = Item(text: string, link: Option<string>, separator: bool)

  /** A crumb that is not the last one: a link followed by a separator. */
  function Inner(c: Crumb): Item {
    Item(c.name, Some(LinkTarget(c.id)), true)
  }

  /** The last crumb: plain text with nothing after it. */
  function Last(c: Crumb): Item {
    Item(c.name, None, false)
  }

  /** `allCrumbs.map(...)`, one item per crumb in order. */
  function Render(crumbs: seq<Crumb>): seq<Item> {
    if crumbs == [] then []
    else if |crumbs| == 1 then [Last(crumbs[0])]
    else [Inner(crumbs[0])] + Render(crumbs[1..])
  }

  /**
   * One item per crumb, showing its name; exactly the last one is not
   * a link, every other one links to its crumb's target, and a separator
   * follows every item except the last.
   */
  lemma {:induction false} RenderSpec(crumbs: seq<Crumb>)
    ensures |Render(crumbs)| == |crumbs|
    ensures forall i :: 0 <= i < |crumbs| ==> Render(crumbs)[i].text == crumbs[i].name
    ensures forall i :: 0 <= i < |crumbs| ==> (Render(crumbs)[i].link.None? <==> i == |crumbs| - 1)
    ensures forall i :: 0 <= i < |crumbs| - 1 ==> Render(crumbs)[i].link == Some(LinkTarget(crumbs[i].id))
    ensures forall i :: 0 <= i < |crumbs| ==> (Render(crumbs)[i].separator <==> i < |crumbs| - 1)
  {
    if |crumbs| > 1 {
      RenderSpec(crumbs[1..]);
    }
  }

  /** What the component renders. */
  datatype View = LoadingView | NoNav | Nav(items: seq<Item>)

  function ViewOf(loading: bool, breadcrumbs: seq<Crumb>): View {
    if loading then LoadingView
    else if |AllCrumbs(breadcrumbs)| == 0 then NoNav
    else Nav(Render(AllCrumbs(breadcrumbs)))
  }

  /**
   * The `allCrumbs.length === 0` branch is dead: once loaded, the trail
   * always shows, starting with a link to the dashboard when a path was
   * fetched and with the plain root crumb alone when none was.
   */
  lemma TrailAlwaysShown(loading: bool, breadcrumbs: seq<Crumb>)
    ensures ViewOf(loading, breadcrumbs) != NoNav
    ensures !loading ==> ViewOf(loading, breadcrumbs).Nav?
    ensures !loading && breadcrumbs == [] ==> ViewOf(loading, breadcrumbs) == Nav([Item("Dashboard", None, false)])
    ensures !loading && breadcrumbs != [] ==> ViewOf(loading, breadcrumbs).items[0] == Item("Dashboard", Some("/dashboard"), true)
  {
    if !loading && breadcrumbs != [] {
      RenderSpec(AllCrumbs(breadcrumbs));
      assert LinkTarget(Root.id) == "/dashboard";
    }
  }

  /** `folderId` and the token are used only when truthy: present and not empty. */
  predicate Truthy(s: Option<string>) {
    s.Some? && s.value != ""
  }

  /**
   * The path a reply leaves in the state: the parsed body when the response
   * was ok and the body is not null (`pathData || []`), the empty path
   * otherwise (the thrown error and the rejected promise both land in the
   * `catch`).
   */
  function PathOf(reply: Reply<Option<seq<Crumb>>>): (r: seq<Crumb>)
    ensures r != [] ==> reply == Ok(Some(r))
    ensures reply.Ok? && reply.body.Some? ==> r == reply.body.value
  {
    match reply
    case Ok(Some(path)) => path
    case _ => []
  }

  function PathRequest(folderId: string): Request {
    Get("/folders/" + folderId + "/breadcrumbs")
  }

  class Trail {
    var breadcrumbs: seq<Crumb>
    var loading: bool
    /** Every request sent, in order. */
    var sent: seq<Request>

    constructor ()
      ensures breadcrumbs == [] && !loading && sent == []
    {
      breadcrumbs, loading, sent := [], false, [];
    }

    /**
     * `fetchBreadcrumbs`. Without a folder id the trail is emptied and
     * nothing is sent. Otherwise `token` is the session's access token (none
     * when there is no session or `getSession` fails) and `reply` what the
     * request for the path yields; `loading` is false once the fetch ends,
     * whatever the outcome.
     */
    method FetchBreadcrumbs(folderId: Option<string>, token: Option<string>, reply: Reply<Option<seq<Crumb>>>)
      modifies this
      ensures !Truthy(folderId) ==> breadcrumbs == [] && loading == old(loading) && sent == old(sent)
      ensures Truthy(folderId) && !Truthy(token) ==> breadcrumbs == [] && !loading && sent == old(sent)
      ensures Truthy(folderId) && Truthy(token) ==>
        && sent == old(sent) + [PathRequest(folderId.value)]
        && breadcrumbs == PathOf(reply)
        && !loading
    {
      if !Truthy(folderId) {
        breadcrumbs := [];
        return;
      }
      loading := true;
      if !Truthy(token) {
        breadcrumbs := [];
        loading := false;
        return;
      }
      sent := sent + [PathRequest(folderId.value)];
      breadcrumbs := PathOf(reply);
      loading := false;
    }
  }
}
