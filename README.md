# Verified model of the file-manager client's list state

This project models the parts of a React file-manager client that keep state
and make decisions, and proves properties of them. That client is a thin
front end over a REST gateway and an authentication service. The modelled parts are:

- the **dashboard list-state controller** (`src/pages/Dashboard.js`):
  - the view coordinates (folder, search term, sort, order, trash mode, media type);
  - the reset effect;
  - the choice between the unified search query and the folder and file listings;
  - how a fetched page is merged into the accumulated list, and `hasMore`;
  - the infinite-scroll page advance;
  - the six trash, restore and delete handlers, which flip a refresh toggle;
  - folder creation.
- the **media-type filter** over the fetched files, including the `getExtension`
  trick with `>>> 0`.
- the **upload drop zone** (`src/components/UploadArea.js`): the `isUUID` check on
  the folder id and the sequential per-file upload loop.
- the **breadcrumb trail** (`src/components/Breadcrumbs.js`): how a fetch outcome
  becomes the trail, the root crumb in front, link targets, and which crumb is
  plain text.
- the **trash page** (`src/pages/TrashPage.js`): remove-by-id after a restore or
  a permanent delete.

The gateway is an oracle. A `Gateway` value answers each listing or search URL
with `Ok(body)`, `NotOk(status)` or `NetworkError(message)`, and each handler
takes the reply its request would get as a parameter. A fetch together with the
replies it awaits is one atomic step, except for the one fetch the code sends
with an out-of-date page (below), which stays pending until its replies land.
Requests that the code sends are collected in a `sent` field, so their URLs and
bodies can be stated.

Files:

- `wrappers.dfy`: `Option`.
- `http.dfy`: URLs with ordered query parameters, requests, replies.
- `resources.dfy`: the gateway's entry record.
- `seqs.dfy`: `Array.prototype.filter` and subsequences.
- `text.dfy`: `trim`, ASCII `toLowerCase`, `lastIndexOf`.
- `media.dfy`: `getExtension` and `filteredFiles`.
- `dashboard_query.dfy`: the pure part of the controller.
- `dashboard.dfy`: the controller as a class.
- `upload_area.dfy`, `breadcrumbs.dfy` and `trash_page.dfy`: the three components.

Behaviour of the dashboard code that the model keeps:

- The reset effect's dependencies leave out the media type
  (src/pages/Dashboard.js:97), so switching the media filter keeps the list and
  its page.
- A successful trash, restore or delete flips `refreshToggle`, which the fetch
  effect depends on but the reset effect does not. The current page is fetched
  again, and on a page after the first its entries are appended a second time
  (`RefreshRefetchesWithoutReset`).
- A change of search term, sort, order, folder or trash mode on page `p > 1`
  fetches twice. The reset effect's `setPage(1)` only takes effect at the next
  render, so in the same commit the fetch effect sends page `p` of the new
  query (offset `(p-1)*20`). The next render then fetches page 1. If page 1's
  replies land first, page `p`'s are appended behind them and `hasMore` follows
  page `p`; if page `p`'s land first, page 1 replaces them
  (`StalePageAfterReset`, `SetView`, `LandPending`).
- No reply is ever discarded as out of date, and the scroll trigger is not
  debounced.
- Trash listings carry no folder, sort, order, limit or offset parameter
  (src/pages/Dashboard.js:140-142).

## Model

| member | source | states |
|---|---|---|
| Text.TrimIsEmptyIffBlank | src/pages/Dashboard.js:117 | `trim()` gives the empty string exactly when every character is JavaScript white space. Otherwise the result is a slice of the input that starts and ends with a non-white-space character. |
| Text.ToLower | src/pages/Dashboard.js:422 | `toLowerCase()` keeps the length and lower-cases each character in place: ASCII capitals and the KELVIN SIGN, which becomes `k`. |
| Text.LastIndexOf | src/pages/Dashboard.js:422 | `lastIndexOf('.')` is -1 or an index holding the character, and no later index holds it. |
| Seqs.Filter | src/pages/Dashboard.js:425-467 | `filter` never lengthens the list. An element is kept exactly when it was there and the predicate holds of it, and then as many times as it occurs. |
| Media.ToUint32 | src/pages/Dashboard.js:422 | `x >>> 0` lies in [0, 2^32), is congruent to `x` modulo 2^32 (so -2 gives 2^32-2), and is the identity on that range. |
| Media.GetExtensionSpec | src/pages/Dashboard.js:421-423 | The extension is "" when no dot occurs after index 0 (no dot at all, or only a leading dot). Otherwise it is the lower-cased text after the last dot. |
| Media.DotFileHasNoExtension | src/pages/Dashboard.js:421-423 | `.bashrc` has no extension. |
| Media.UpperCaseExtensionIsImage | src/pages/Dashboard.js:422-433 | A file named `photo.JPG` with no MIME type is an image, because the extension is lower-cased. |
| Media.FilteredFilesMembership | src/pages/Dashboard.js:432-464 | A file passes the `image`, `video` or `document` filter exactly when it is of that kind. It passes `other` exactly when it is of none of the three kinds. |
| Media.OtherIsComplement | src/pages/Dashboard.js:451-463 | Every fetched file passes `other` exactly when it passes none of the other three filters. |
| Media.UntypedFileIsOther | src/pages/Dashboard.js:426-463 | A file with no extension and an empty or missing MIME type passes only `other` (and `all`). |
| Media.KelvinExtensionIsVideo | src/pages/Dashboard.js:418-441 | A file named `clip.M\u212AV` (KELVIN SIGN) with no MIME type is a video, because its extension lower-cases to `mkv`. |
| Media.AllOrUnknownKeepsEverything | src/pages/Dashboard.js:430-466 | Under `all`, or under any value that is not one of the four kinds, the filter keeps every file. |
| Media.FilteredFilesIsSubsequence | src/pages/Dashboard.js:425 | The shown files are a subsequence of the fetched files, in their original order. |
| Media.FilteredFilesIdempotent | src/pages/Dashboard.js:425-467 | Filtering twice with the same media type gives what filtering once gives. |
| Media.FilteredFilesAppend | src/pages/Dashboard.js:425-467 | Filtering the list after a page is appended equals the filtered old list followed by the filtered page. |
| Media.VisibleFolders | src/pages/Dashboard.js:679-681 | Folders are shown only under `all`, and then all of them. |
| DashboardQuery.CleanedFolderId | src/pages/Dashboard.js:40 | The cleaned id is null for a missing, empty, `'undefined'` or `'null'` parameter. Otherwise it is the parameter unchanged. |
| DashboardQuery.FolderParamNullExactlyForRoot | src/pages/Dashboard.js:146-147 | `cleanedFolderId ?? 'null'` reads `'null'` exactly for those root parameters, and is never empty. |
| DashboardQuery.CleanedFolderIdIdempotent | src/pages/Dashboard.js:40 | Cleaning a cleaned id changes nothing. |
| DashboardQuery.SearchUrl | src/pages/Dashboard.js:119-125 | The search URL is `/search`. It carries the untrimmed term as `q`, limit 20, offset `(page-1)*20`, sort, order, and the folder parameter as `folder_id`. |
| DashboardQuery.ListingUrl | src/pages/Dashboard.js:144-155 | A listing URL carries the folder parameter under its own key, plus sort, order, limit 20 and offset `(page-1)*20`. |
| DashboardQuery.FetchPlan | src/pages/Dashboard.js:117-156 | The search branch is taken exactly when the trimmed term is not empty, and its URL carries the untrimmed `q`. In trash mode the URLs are the bare `/folders/trash` and `/files/trash`. Otherwise `/folders` gets `parent_folder_id` and `/files` gets `folder_id`, and both get sort, order, limit and offset. |
| DashboardQuery.SearchBranchIffNotBlank | src/pages/Dashboard.js:117 | The search endpoint is used exactly when the term holds a non-white-space character. |
| DashboardQuery.MarkTrashed | src/pages/Dashboard.js:170-173 | Each trash-listing entry gets `trashed = true`, with its other fields and the order unchanged. |
| DashboardQuery.RunPlan | src/pages/Dashboard.js:127-168 | A search succeeds exactly when its response is ok; a missing `folders` or `files` becomes empty; a non-ok response gives the fixed search message. A listing succeeds exactly when both responses are ok; in trash mode the folders and files are the two bodies with every entry marked trashed. A rejected request reports its own message. |
| DashboardQuery.Merge | src/pages/Dashboard.js:176-177 | Page 1 replaces the list. A later page is appended: the old entries stay in order in front, and the length grows by exactly the page's size. |
| DashboardQuery.AfterFetch | src/pages/Dashboard.js:176-181 | A failure sets `error` and keeps lists and `hasMore`. A success merges both lists, sets `hasMore` to whether at least 20 entries came back, and clears `error`. |
| DashboardQuery.MediaTypeChangeIsLocal | src/pages/Dashboard.js:92-97 | Changing the media type changes neither the reset effect's dependencies nor the fetch effect's. |
| DashboardQuery.RefreshRefetchesWithoutReset | src/pages/Dashboard.js:187 | Flipping the refresh toggle changes the fetch dependencies. On a page after the first, the re-fetched page is appended behind what is already listed. |
| DashboardQuery.EquivalentRootParamsDoNotReset | src/pages/Dashboard.js:97 | Moving between `'undefined'` and `'null'`, or between a missing and an empty folder parameter, does not reset the list. |
| DashboardQuery.MergePagesFromFirstIsConcat | src/pages/Dashboard.js:176-177 | Fetching pages 1..n in order leaves exactly their concatenation, whatever was listed before. |
| DashboardQuery.StalePageAfterReset | src/pages/Dashboard.js:92-181 | After the reset, page 1 landing before a later page `p` leaves page 1 followed by page `p`, with `hasMore` from page `p`; `p` landing first is replaced by page 1. |
| DashboardQuery.MergeLaterPagesAppends | src/pages/Dashboard.js:176-177 | Fetching pages after the first only appends to the existing list. |
| Dashboard.MutationRequest | src/pages/Dashboard.js:284-382 | Trash and permanent delete use DELETE and restore uses POST, with no body and no query string. |
| Dashboard.Controller.constructor | src/pages/Dashboard.js:26-33 | The initial state: empty lists, page 1, `hasMore`, no error, default search, sort and order. |
| Dashboard.Controller.SetView | src/pages/Dashboard.js:92-187 | A change of search term, sort, order, cleaned folder id or trash mode empties both lists and sets page 1 and `hasMore`. If it happens with a session on a page `p` other than 1, page `p` of the new query is sent and left pending. Any other change (media type, an equivalent folder parameter) keeps the lists and sends nothing. |
| Dashboard.Controller.LandPending | src/pages/Dashboard.js:103-187 | A pending fetch's replies are applied with the page it was sent for (`AfterFetch`), and it leaves the pending list. |
| Dashboard.Controller.SetSession | src/pages/Dashboard.js:75-86 | The session is replaced. |
| Dashboard.Controller.FetchData | src/pages/Dashboard.js:103-187 | Without a session nothing changes. Otherwise the plan's GETs are sent and the list state becomes `AfterFetch` of the old state, the gateway's outcome and the current page. Nothing else changes, and the offset sent is never negative. |
| Dashboard.Controller.HandleScroll | src/pages/Dashboard.js:227-232 | The page advances by exactly one, and only when near the bottom and `hasMore`. |
| Dashboard.Controller.Refresh | src/pages/Dashboard.js:278-280 | The refresh toggle flips. |
| Dashboard.Controller.ApplyMutation | src/pages/Dashboard.js:284-382 | Without a session nothing changes. Otherwise the request is sent. Success flips the toggle once; failure alerts the fixed or network message and leaves the toggle alone. Lists, page, `hasMore` and `error` are never touched. |
| Dashboard.Controller.CreateFolder | src/pages/Dashboard.js:248-276 | A blank name changes nothing. With no session the TypeError is alerted and nothing is sent. Otherwise the trimmed name is posted with the cleaned parent id. Success clears the name and navigates to the new folder; failure alerts. `creatingFolder` ends false. |
| Dashboard.Controller.ShownFolders | src/pages/Dashboard.js:679-681 | All folders under `all`, none otherwise. |
| Dashboard.Controller.ShownFiles | src/pages/Dashboard.js:694 | The shown files are exactly the fetched files the media type keeps, each as many times as it was fetched, in fetch order. |
| UploadArea.IsUUIDIffShape | src/components/UploadArea.js:5-8 | `isUUID` accepts exactly 36 characters with dashes at 8, 13, 18 and 23, a version digit 1-5 at 14, a variant digit 8, 9, a or b at 19 and hex digits elsewhere, letters in either case. |
| UploadArea.IsUUIDIffRuns | src/components/UploadArea.js:6 | Matching the anchored expression atom by atom is covering its eleven character runs in order. |
| UploadArea.MatchesAtomsWidth | src/components/UploadArea.js:6 | An anchored match consumes exactly the expression's width, which is 36 for the UUID expression. |
| UploadArea.VersionChecked | src/components/UploadArea.js:6 | A 36-character string without 1-5 at the version position (a nil or version-6 UUID) is refused. |
| UploadArea.VariantChecked | src/components/UploadArea.js:6 | A 36-character string without 8, 9, a or b at the variant position is refused. |
| UploadArea.FolderField | src/components/UploadArea.js:27-29 | `folder_id` is attached exactly when the folder id is present, not empty and a UUID, and it is then the id itself. |
| UploadArea.UploadRequestsSpec | src/components/UploadArea.js:23-32 | One POST to `/files/upload` per dropped file, in drop order, each with the same `folder_id` field. |
| UploadArea.SuccessesSpec | src/components/UploadArea.js:43 | `onUploadSuccess` is called once per successful upload, in drop order, and for no failed one. |
| UploadArea.FailureAlertsCount | src/components/UploadArea.js:43-46 | Alerts and success callbacks together number exactly the dropped files. |
| UploadArea.Uploader.constructor | src/components/UploadArea.js:11-12 | Not uploading, progress 0. |
| UploadArea.Uploader.UploadOne | src/components/UploadArea.js:24-47 | One iteration sends the file's POST, then either calls back or alerts `Failed to upload <name>`. |
| UploadArea.Uploader.UploadAll | src/components/UploadArea.js:23-48 | The loop sends every request in order, records exactly the successes in order, and alerts exactly the failures in order. |
| UploadArea.Uploader.OnDrop | src/components/UploadArea.js:14-54 | Without a token only the alert is raised. Otherwise the loop runs over all files, and `uploading` is false and `progress` 0 afterwards. |
| Breadcrumbs.AllCrumbs | src/components/Breadcrumbs.js:51 | The root crumb `{dashboard, Dashboard}` comes first, followed by the fetched path in order. The trail is never empty. |
| Breadcrumbs.LinkTarget | src/components/Breadcrumbs.js:69 | Id `dashboard` links to `/dashboard`; any other id links to `/folder/<id>`. |
| Breadcrumbs.RenderSpec | src/components/Breadcrumbs.js:67-80 | One item per crumb with the crumb's name. Exactly the last item is not a link, every other item links to its crumb's target, and a separator follows every item but the last. |
| Breadcrumbs.TrailAlwaysShown | src/components/Breadcrumbs.js:51-63 | The empty-trail branch is unreachable. Once loaded, the trail starts with a dashboard link, or is the plain root crumb alone when the path is empty. |
| Breadcrumbs.PathOf | src/components/Breadcrumbs.js:35-41 | Only an ok reply with a non-null body yields a non-empty path, and that path is the body. |
| Breadcrumbs.Trail.constructor | src/components/Breadcrumbs.js:6-7 | Empty trail, not loading. |
| Breadcrumbs.Trail.FetchBreadcrumbs | src/components/Breadcrumbs.js:10-45 | Without a folder id the trail is emptied, `loading` is untouched and nothing is sent. Without a token the trail is emptied and `loading` is false. Otherwise the path GET is sent, the trail becomes the reply's path, and `loading` ends false. |
| TrashPage.RemoveByIdSpec | src/pages/TrashPage.js:23 | The entries left are exactly those with another id, each as many times as it was listed, in their original order. |
| TrashPage.RemoveByIdIdempotent | src/pages/TrashPage.js:29 | Removing an id twice leaves what removing it once leaves. |
| TrashPage.RemoveAbsentId | src/pages/TrashPage.js:34 | Removing an id no entry has changes nothing. |
| TrashPage.RemoveByIdCommutes | src/pages/TrashPage.js:20-40 | Two removals give the same list in either order. |
| TrashPage.Trash.constructor | src/pages/TrashPage.js:6-7 | Both lists start empty. |
| TrashPage.Trash.RestoreFile | src/pages/TrashPage.js:20-24 | The restore POST is sent. Whenever it resolves, whatever the status, the file's id is removed from the trashed files. The trashed folders never change. |
| TrashPage.Trash.DeleteFile | src/pages/TrashPage.js:26-30 | The DELETE is sent. Whenever it resolves, the file's id is removed from the trashed files. The trashed folders never change. |
| TrashPage.Trash.RestoreFolder | src/pages/TrashPage.js:32-35 | The restore POST is sent. Whenever it resolves, the folder's id is removed from the trashed folders. The trashed files never change. |
| TrashPage.Trash.DeleteFolder | src/pages/TrashPage.js:37-40 | The DELETE is sent. Whenever it resolves, the folder's id is removed from the trashed folders. The trashed files never change. |

## Left out

- HTTP, the authentication SDK and `process.env.REACT_APP_API_URL` are foreign I/O. Requests are recorded as values with paths relative to the API base, and replies are parameters. Bearer headers are not modelled.
- JSON parsing: an ok reply carries an already parsed body. A body that fails to parse, or that is not an array, is not modelled.
- Query values given as numbers (`limit`, `offset`) are kept as numbers rather than serialised to decimal strings.
- Dashboard: the storage-usage fetch (src/pages/Dashboard.js:42-73) and the current-folder fetch (189-223) are not part of this model. The current-folder fetch also writes the modelled `error` field: it clears it on success (214) and sets it to the failure's message (216), so it can clear or overwrite a listing error; the model's `error` is only what the list fetches write. Neither is the auth listener's redirect to `/login` (83-86), logout and login (238-246), or anything rendered.
- Concurrency: apart from the out-of-date-page fetch that `SetView` leaves pending, a fetch and the replies it awaits are one step. A refresh or a page advance whose fetch overlaps an earlier one is not interleaved.
- DashboardQuery.RunPlan: under `Promise.all` the first rejection to happen is the one reported. The model checks the folders request first, because which request rejects first is timing.
- The near-bottom test of the scroll handler is a boolean input (scroll geometry). The search bar's debounce is timing.
- UploadArea.Uploader.OnDrop: upload progress events and the percentage they set (src/components/UploadArea.js:37-40) are floating-point display and are not modelled. Only the final `progress` of 0 is.
- Text.ToLower: covers ASCII capitals and the KELVIN SIGN (to `k`). Other non-ASCII characters are kept, unlike JavaScript's full Unicode mapping. No other character lower-cases to ASCII letters only, so whether an extension is in the ASCII tables does not change. U+0130 lower-cases to two characters in JavaScript, so the lengths can differ.
- Media.GetExtensionSpec: stated for names of at most 2^32 characters. Beyond that, `>>> 0` wraps around and the slice would start inside the name. JavaScript engines do not allow strings that long.
- The `i` flag of the UUID expression is modelled by lower-casing with `ToLowerChar`. This is exact here: without the `u` flag, JavaScript never folds a non-ASCII character onto an ASCII one, and the one non-ASCII character `ToLowerChar` maps (the KELVIN SIGN, to `k`) is in no class of the expression.
- The trash page's initial load (src/pages/TrashPage.js:9-18) is not part of this model: it parses whatever body comes back, ok or not. The model's lists start empty.
- The Breadcrumbs `getSession` call is represented by its token: a missing session and a failed `getSession` both give no token. Both empty the trail and end loading.
