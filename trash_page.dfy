/**
 * The trash page (src/pages/TrashPage.js): two lists of trashed entries and
 * four handlers that restore or permanently delete one entry and then drop
 * it from its list.
 */
module TrashPage {
  import opened Http
  import opened Resources
  import opened Seqs

  /** `prev.filter(f => f.id !== id)`: every entry with that id is dropped. */
  function RemoveById(entries: seq<Entry>, id: string): seq<Entry> {
    Filter(entries, (e: Entry) => e.id != id)
  }

  /**
   * What stays is exactly the entries with another id, each as often as it was
   * listed, in their original order.
   */
  lemma RemoveByIdSpec(entries: seq<Entry>, id: string)
    ensures forall e :: e in RemoveById(entries, id) <==> e in entries && e.id != id
    ensures forall e :: multiset(RemoveById(entries, id))[e] == if e.id != id then multiset(entries)[e] else 0
    ensures IsSubsequence(RemoveById(entries, id), entries)
  {
    FilterIsSubsequence(entries, (e: Entry) => e.id != id);
  }

  /** Removing the same id twice leaves what removing it once leaves. */
  lemma RemoveByIdIdempotent(entries: seq<Entry>, id: string)
    ensures RemoveById(RemoveById(entries, id), id) == RemoveById(entries, id)
  {
    FilterIdempotent(entries, (e: Entry) => e.id != id);
  }

  /** Removing an id no entry carries changes nothing. */
  lemma RemoveAbsentId(entries: seq<Entry>, id: string)
    requires forall e :: e in entries ==> e.id != id
    ensures RemoveById(entries, id) == entries
  {
    FilterKeepsAll(entries, (e: Entry) => e.id != id);
  }

  /** Two removals give the same list in either order. */
  lemma RemoveByIdCommutes(entries: seq<Entry>, a: string, b: string)
    ensures RemoveById(RemoveById(entries, a), b) == RemoveById(RemoveById(entries, b), a)
  {
    FilterCommutes(entries, (e: Entry) => e.id != a, (e: Entry) => e.id != b);
  }

  /**
   * The `.then` callback runs whenever the request's promise resolves,
   * whatever the HTTP status; only a rejected promise (a network failure)
   * skips it.
   */
  predicate Resolved(reply: Reply<()>) {
    !reply.NetworkError?
  }

  function RestoreFileRequest(fileId: string): Request {
    Request(POST, Url("/api/files/" + fileId + "/restore", []), NoBody)
  }

  function DeleteFileRequest(fileId: string): Request {
    Request(DELETE, Url("/api/files/" + fileId, []), NoBody)
  }

  function RestoreFolderRequest(folderId: string): Request {
    Request(POST, Url("/api/folders/" + folderId + "/restore", []), NoBody)
  }

  function DeleteFolderRequest(folderId: string): Request {
    Request(DELETE, Url("/api/folders/" + folderId, []), NoBody)
  }

  class Trash {
    var trashedFiles: seq<Entry>
    var trashedFolders: seq<Entry>
    /** Every request sent, in order. */
    var sent: seq<Request>

    constructor ()
      ensures trashedFiles == [] && trashedFolders == [] && sent == []
    {
      trashedFiles, trashedFolders, sent := [], [], [];
    }

    /** `handleRestoreFile`. */
    method RestoreFile(fileId: string, reply: Reply<()>)
      modifies this
      ensures sent == old(sent) + [RestoreFileRequest(fileId)]
      ensures trashedFiles == if Resolved(reply) then RemoveById(old(trashedFiles), fileId) else old(trashedFiles)
      ensures trashedFolders == old(trashedFolders)
    {
      sent := sent + [RestoreFileRequest(fileId)];
      if Resolved(reply) {
        trashedFiles := RemoveById(trashedFiles, fileId);
      }
    }

    /** `handleDeleteFile`. */
    method DeleteFile(fileId: string, reply: Reply<()>)
      modifies this
      ensures sent == old(sent) + [DeleteFileRequest(fileId)]
      ensures trashedFiles == if Resolved(reply) then RemoveById(old(trashedFiles), fileId) else old(trashedFiles)
      ensures trashedFolders == old(trashedFolders)
    {
      sent := sent + [DeleteFileRequest(fileId)];
      if Resolved(reply) {
        trashedFiles := RemoveById(trashedFiles, fileId);
      }
    }

    /** `handleRestoreFolder`. */
    method RestoreFolder(folderId: string, reply: Reply<()>)
      modifies this
      ensures sent == old(sent) + [RestoreFolderRequest(folderId)]
      ensures trashedFolders == if Resolved(reply) then RemoveById(old(trashedFolders), folderId) else old(trashedFolders)
      ensures trashedFiles == old(trashedFiles)
    {
      sent := sent + [RestoreFolderRequest(folderId)];
      if Resolved(reply) {
        trashedFolders := RemoveById(trashedFolders, folderId);
      }
    }

    /** `handleDeleteFolder`. */
    method DeleteFolder(folderId: string, reply: Reply<()>)
      modifies this
      ensures sent == old(sent) + [DeleteFolderRequest(folderId)]
      ensures trashedFolders == if Resolved(reply) then RemoveById(old(trashedFolders), folderId) else old(trashedFolders)
      ensures trashedFiles == old(trashedFiles)
    {
      sent := sent + [DeleteFolderRequest(folderId)];
      if Resolved(reply) {
        trashedFolders := RemoveById(trashedFolders, folderId);
      }
    }
  }
}
