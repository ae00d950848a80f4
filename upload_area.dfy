/**
 * The upload drop zone (src/components/UploadArea.js): the `isUUID` check
 * on the folder id and the `onDrop` loop that posts the dropped files one
 * after another.
 */
module UploadArea {
  import opened Wrappers
  import opened Text
  import opened Http

  /**
   * The character classes of the regular expression
   * `^[0-9a-f]{8}-[0-9a-f]{4}-[1-5][0-9a-f]{3}-[89ab][0-9a-f]{3}-[0-9a-f]{12}$`
   * matched with the `i` flag.
   */
  datatype CharClass = HexDigit | Dash | VersionDigit | VariantDigit

  /** One atom of the expression: a class repeated `count` times (`[...]{count}`). */
  datatype Atom = Atom(cls: CharClass, count: nat)

  /**
   * Membership in a class, case-insensitively. For these classes the `i` flag
   * folds ASCII case only; `ToLowerChar` also maps the KELVIN SIGN to `k`,
   * which no class contains, so that changes nothing.
   */
  predicate InClass(k: CharClass, c: char) {
    var l := ToLowerChar(c);
    match k
    case HexDigit => '0' <= l <= '9' || 'a' <= l <= 'f'
    case Dash => c == '-'
    case VersionDigit => '1' <= l <= '5'
    case VariantDigit => l == '8' || l == '9' || l == 'a' || l == 'b'
  }

  /** The expression, atom by atom: hex groups of 8, 4, 4, 4 and 12 separated by dashes. */
  function UuidAtoms(): seq<Atom> {
    [ Atom(HexDigit, 8), Atom(Dash, 1),
      Atom(HexDigit, 4), Atom(Dash, 1),
      Atom(VersionDigit, 1), Atom(HexDigit, 3), Atom(Dash, 1),
      Atom(VariantDigit, 1), Atom(HexDigit, 3), Atom(Dash, 1),
      Atom(HexDigit, 12) ]
  }

  /** An anchored match: each atom consumes exactly its count of characters of its class. */
  predicate MatchesAtoms(atoms: seq<Atom>, s: string)
    decreases |atoms|
  {
    if atoms == [] then s == []
    else
      && |s| >= atoms[0].count
      && (forall i :: 0 <= i < atoms[0].count ==> InClass(atoms[0].cls, s[i]))
      && MatchesAtoms(atoms[1..], s[atoms[0].count..])
  }

  /** `isUUID`: the whole string matches the expression. */
  predicate IsUUID(s: string) {
    MatchesAtoms(UuidAtoms(), s)
  }

  /** Characters `off .. off + n` of `s` all belong to class `k`. */
  predicate ClassRun(s: string, off: nat, k: CharClass, n: nat) {
    off + n <= |s| && forall i :: off <= i < off + n ==> InClass(k, s[i])
  }

  /** Matching atoms `k..` against the suffix of `s` from `off`: atom `k` covers a run starting at `off`. */
  lemma MatchesAtomsFrom(atoms: seq<Atom>, k: nat, s: string, off: nat)
    requires off <= |s| && k < |atoms|
    ensures MatchesAtoms(atoms[k..], s[off..]) <==>
      ClassRun(s, off, atoms[k].cls, atoms[k].count) && MatchesAtoms(atoms[k + 1..], s[off + atoms[k].count..])
  {
    var t, n := s[off..], atoms[k].count;
    assert atoms[k..][0] == atoms[k] && atoms[k..][1..] == atoms[k + 1..];
    if |t| >= n {
      assert t[n..] == s[off + n..];
      if ClassRun(s, off, atoms[k].cls, n) {
        forall i | 0 <= i < n ensures InClass(atoms[k].cls, t[i]) {
          assert t[i] == s[off + i];
        }
      }
      if forall i :: 0 <= i < n ==> InClass(atoms[k].cls, t[i]) {
        forall i | off <= i < off + n ensures InClass(atoms[k].cls, s[i]) {
          assert s[i] == t[i - off];
        }
      }
    }
  }

  /** The RFC 4122 variant digits 8, 9, a and b, in either case. */
  predicate IsVariantDigit(c: char) {
    c == '8' || c == '9' || c == 'a' || c == 'b' || c == 'A' || c == 'B'
  }

  /** The case-insensitive variant class is the variant digits of either case. */
  lemma VariantClass(c: char)
    ensures InClass(VariantDigit, c) <==> IsVariantDigit(c)
  {
  }

  predicate IsHexDigit(c: char) {
    '0' <= c <= '9' || 'a' <= c <= 'f' || 'A' <= c <= 'F'
  }

  /**
   * What the regular expression accepts, position by position: 36
   * characters, dashes at 8, 13, 18 and 23, a version digit 1-5 at 14, a
   * variant digit 8, 9, a or b (either case) at 19, and hex digits (either
   * case) at every other position.
   */
  predicate UuidShape(s: string) {
    && |s| == 36
    && s[8] == '-' && s[13] == '-' && s[18] == '-' && s[23] == '-'
    && '1' <= s[14] <= '5'
    && IsVariantDigit(s[19])
    && (forall i :: 0 <= i < 8 ==> IsHexDigit(s[i]))
    && (forall i :: 9 <= i < 13 ==> IsHexDigit(s[i]))
    && (forall i :: 15 <= i < 18 ==> IsHexDigit(s[i]))
    && (forall i :: 20 <= i < 23 ==> IsHexDigit(s[i]))
    && (forall i :: 24 <= i < 36 ==> IsHexDigit(s[i]))
  }

  /** The runs of the first three atoms: the first group, a dash and the second group. */
  predicate UuidHeadRuns(s: string) {
    ClassRun(s, 0, HexDigit, 8) && ClassRun(s, 8, Dash, 1) && ClassRun(s, 9, HexDigit, 4)
  }

  /** The runs of the next two atoms: a dash and the version digit. */
  predicate UuidMiddleRuns(s: string) {
    ClassRun(s, 13, Dash, 1) && ClassRun(s, 14, VersionDigit, 1)
  }

  /** The runs of the third group and the dash after it. */
  predicate UuidThirdRuns(s: string) {
    ClassRun(s, 15, HexDigit, 3) && ClassRun(s, 18, Dash, 1)
  }

  /** The runs of the last four atoms: the variant digit, the fourth group, a dash and the last group. */
  predicate UuidTailRuns(s: string) {
    && ClassRun(s, 19, VariantDigit, 1) && ClassRun(s, 20, HexDigit, 3) && ClassRun(s, 23, Dash, 1)
    && ClassRun(s, 24, HexDigit, 12)
  }

  lemma UuidHeadChain(s: string)
    requires |s| == 36
    ensures MatchesAtoms(UuidAtoms()[0..], s[0..]) <==> UuidHeadRuns(s) && MatchesAtoms(UuidAtoms()[3..], s[13..])
  {
    var a := UuidAtoms();
    MatchesAtomsFrom(a, 0, s, 0);
    MatchesAtomsFrom(a, 1, s, 8);
    MatchesAtomsFrom(a, 2, s, 9);
  }

  lemma UuidMiddleChain(s: string)
    requires |s| == 36
    ensures MatchesAtoms(UuidAtoms()[3..], s[13..]) <==> UuidMiddleRuns(s) && MatchesAtoms(UuidAtoms()[5..], s[15..])
  {
    var a := UuidAtoms();
    MatchesAtomsFrom(a, 3, s, 13);
    MatchesAtomsFrom(a, 4, s, 14);
  }

  lemma UuidThirdChain(s: string)
    requires |s| == 36
    ensures MatchesAtoms(UuidAtoms()[5..], s[15..]) <==> UuidThirdRuns(s) && MatchesAtoms(UuidAtoms()[7..], s[19..])
  {
    var a := UuidAtoms();
    MatchesAtomsFrom(a, 5, s, 15);
    MatchesAtomsFrom(a, 6, s, 18);
  }

  lemma UuidTailChain(s: string)
    requires |s| == 36
    ensures MatchesAtoms(UuidAtoms()[7..], s[19..]) <==> UuidTailRuns(s)
  {
    var a := UuidAtoms();
    MatchesAtomsFrom(a, 7, s, 19);
    MatchesAtomsFrom(a, 8, s, 20);
    MatchesAtomsFrom(a, 9, s, 23);
    MatchesAtomsFrom(a, 10, s, 24);
    assert a[11..] == [] && s[36..] == [];
  }

  /** Matching the atoms one after another is covering their runs. */
  lemma IsUUIDIffRuns(s: string)
    ensures IsUUID(s) <==> |s| == 36 && UuidHeadRuns(s) && UuidMiddleRuns(s) && UuidThirdRuns(s) && UuidTailRuns(s)
  {
    if |s| == 36 {
      assert s[0..] == s && UuidAtoms()[0..] == UuidAtoms();
      UuidHeadChain(s);
      UuidMiddleChain(s);
      UuidThirdChain(s);
      UuidTailChain(s);
    } else {
      MatchesAtomsWidth(UuidAtoms(), s);
    }
  }

  /** Case-insensitive hex digits are the hex digits of either case. */
  lemma HexRun(s: string, off: nat, n: nat)
    ensures ClassRun(s, off, HexDigit, n) <==> off + n <= |s| && forall i :: off <= i < off + n ==> IsHexDigit(s[i])
  {
  }

  /** A run of one character is that character's class. */
  lemma SingleRun(s: string, off: nat, k: CharClass)
    requires off < |s|
    ensures ClassRun(s, off, k, 1) <==> InClass(k, s[off])
  {
  }

  /** The case-insensitive version class is the digits 1-5. */
  lemma VersionClass(c: char)
    ensures InClass(VersionDigit, c) <==> '1' <= c <= '5'
  {
  }

  lemma HeadRunsShape(s: string)
    requires |s| == 36
    ensures UuidHeadRuns(s) <==>
      (forall i :: 0 <= i < 8 ==> IsHexDigit(s[i])) && s[8] == '-' && (forall i :: 9 <= i < 13 ==> IsHexDigit(s[i]))
  {
    HexRun(s, 0, 8); SingleRun(s, 8, Dash); HexRun(s, 9, 4);
  }

  lemma MiddleRunsShape(s: string)
    requires |s| == 36
    ensures UuidMiddleRuns(s) <==> s[13] == '-' && '1' <= s[14] <= '5'
  {
    SingleRun(s, 13, Dash); SingleRun(s, 14, VersionDigit); VersionClass(s[14]);
  }

  lemma ThirdRunsShape(s: string)
    requires |s| == 36
    ensures UuidThirdRuns(s) <==> (forall i :: 15 <= i < 18 ==> IsHexDigit(s[i])) && s[18] == '-'
  {
    HexRun(s, 15, 3); SingleRun(s, 18, Dash);
  }

  lemma TailRunsShape(s: string)
    requires |s| == 36
    ensures UuidTailRuns(s) <==>
      && IsVariantDigit(s[19]) && (forall i :: 20 <= i < 23 ==> IsHexDigit(s[i])) && s[23] == '-'
      && (forall i :: 24 <= i < 36 ==> IsHexDigit(s[i]))
  {
    SingleRun(s, 19, VariantDigit); VariantClass(s[19]);
    HexRun(s, 20, 3); SingleRun(s, 23, Dash); HexRun(s, 24, 12);
  }

  /** `isUUID` accepts exactly the strings of UUID shape. */
  lemma IsUUIDIffShape(s: string)
    ensures IsUUID(s) <==> UuidShape(s)
  {
    IsUUIDIffRuns(s);
    if |s| == 36 {
      HeadRunsShape(s);
      MiddleRunsShape(s);
      ThirdRunsShape(s);
      TailRunsShape(s);
    }
  }

  /** The total number of characters the atoms consume. */
  function Width(atoms: seq<Atom>): nat {
    if atoms == [] then 0 else atoms[0].count + Width(atoms[1..])
  }

  lemma {:induction false} MatchesAtomsWidth(atoms: seq<Atom>, s: string)
    ensures MatchesAtoms(atoms, s) ==> |s| == Width(atoms)
    decreases |atoms|
  {
    if atoms != [] && |s| >= atoms[0].count {
      MatchesAtomsWidth(atoms[1..], s[atoms[0].count..]);
    }
  }

  /**
   * The check is stricter than "36 hex digits and dashes": a string whose
   * version position holds anything but 1-5, such as a version-6 or a nil
   * UUID, is refused.
   */
  lemma VersionChecked(s: string)
    requires |s| == 36 && !('1' <= s[14] <= '5')
    ensures !IsUUID(s)
  {
    IsUUIDIffRuns(s);
    MiddleRunsShape(s);
  }

  /** So is one whose variant position holds anything but 8, 9, a or b (either case). */
  lemma VariantChecked(s: string)
    requires |s| == 36 && !IsVariantDigit(s[19])
    ensures !IsUUID(s)
  {
    IsUUIDIffRuns(s);
    SingleRun(s, 19, VariantDigit);
    VariantClass(s[19]);
  }

  /** A dropped file; only its name is read besides its contents. */
  datatype DroppedFile = DroppedFile(name: string)

  /**
   * The `folder_id` field of the form: present only when `folderId` is
   * truthy (present and not empty) and a UUID.
   */
  function FolderField(folderId: Option<string>): (r: Option<string>)
    ensures r.Some? <==> folderId.Some? && folderId.value != "" && IsUUID(folderId.value)
    ensures r.Some? ==> r == folderId
  {
    if folderId.Some? && folderId.value != "" && IsUUID(folderId.value) then folderId else None
  }

  /** The multipart POST for one file, given the form's `folder_id` field. */
  function UploadRequest(file: DroppedFile, folderField: Option<string>): Request {
    Request(POST, Url("/files/upload", []), Multipart(file.name, folderField))
  }

  /** One POST per file among the first `n`, in drop order, all with the same `folder_id` field. */
  function UploadRequests(files: seq<DroppedFile>, n: nat, folderField: Option<string>): seq<Request>
    requires n <= |files|
  {
    if n == 0 then [] else UploadRequests(files, n - 1, folderField) + [UploadRequest(files[n - 1], folderField)]
  }

  /** The i-th request posts the i-th file. */
  lemma {:induction false} UploadRequestsSpec(files: seq<DroppedFile>, n: nat, folderField: Option<string>)
    requires n <= |files|
    ensures |UploadRequests(files, n, folderField)| == n
    ensures forall i :: 0 <= i < n ==> UploadRequests(files, n, folderField)[i] == UploadRequest(files[i], folderField)
  {
    if n > 0 {
      UploadRequestsSpec(files, n - 1, folderField);
    }
  }

  /** The positions `0 <= i < n` whose upload succeeded, in increasing order. */
  function Successes(n: nat, succeeded: nat -> bool): seq<nat> {
    if n == 0 then [] else Successes(n - 1, succeeded) + (if succeeded(n - 1) then [n - 1] else [])
  }

  /**
   * `onUploadSuccess` is called exactly once per successful upload: the
   * recorded positions are the successful ones, each once, in drop order.
   */
  lemma {:induction false} SuccessesSpec(n: nat, succeeded: nat -> bool)
    ensures forall i: nat :: i in Successes(n, succeeded) <==> i < n && succeeded(i)
    ensures forall k :: 0 <= k < |Successes(n, succeeded)| ==> Successes(n, succeeded)[k] < n
    ensures forall a, b :: 0 <= a < b < |Successes(n, succeeded)| ==> Successes(n, succeeded)[a] < Successes(n, succeeded)[b]
  {
    if n > 0 {
      SuccessesSpec(n - 1, succeeded);
    }
  }

  /** One alert per failed upload among the first `n` files, naming the file, in drop order. */
  function FailureAlerts(files: seq<DroppedFile>, n: nat, succeeded: nat -> bool): seq<string>
    requires n <= |files|
  {
    if n == 0 then []
    else FailureAlerts(files, n - 1, succeeded) + (if succeeded(n - 1) then [] else ["Failed to upload " + files[n - 1].name])
  }

  /** There are as many alerts as failed uploads, and none when every upload succeeds. */
  lemma {:induction false} FailureAlertsCount(files: seq<DroppedFile>, n: nat, succeeded: nat -> bool)
    requires n <= |files|
    ensures |FailureAlerts(files, n, succeeded)| + |Successes(n, succeeded)| == n
  {
    if n > 0 {
      FailureAlertsCount(files, n - 1, succeeded);
    }
  }

  const NotAuthenticated := "User is not authenticated."

  class Uploader {
    var uploading: bool
    var progress: int
    /** Every upload request sent, in order. */
    var sent: seq<Request>
    /** One entry per `onUploadSuccess()` call: the position of the file whose upload it followed. */
    var successCallbacks: seq<nat>
    var alerts: seq<string>

    constructor ()
      ensures !uploading && progress == 0 && sent == [] && successCallbacks == [] && alerts == []
    {
      uploading, progress := false, 0;
      sent, successCallbacks, alerts := [], [], [];
    }

    /** One iteration of the upload loop: post file `i`, then call back or alert. */
    method UploadOne(file: DroppedFile, i: nat, folderField: Option<string>, succeeded: nat -> bool)
      modifies this
      ensures sent == old(sent) + [UploadRequest(file, folderField)]
      ensures successCallbacks == old(successCallbacks) + (if succeeded(i) then [i] else [])
      ensures alerts == old(alerts) + (if succeeded(i) then [] else ["Failed to upload " + file.name])
      ensures uploading == old(uploading) && progress == old(progress)
    {
      sent := sent + [UploadRequest(file, folderField)];
      if succeeded(i) {
        successCallbacks := successCallbacks + [i];
      } else {
        alerts := alerts + ["Failed to upload " + file.name];
      }
    }

    /** The `for` loop of `onDrop`: every file in drop order, awaiting each upload. */
    method UploadAll(files: seq<DroppedFile>, folderField: Option<string>, succeeded: nat -> bool)
      modifies this
      ensures sent == old(sent) + UploadRequests(files, |files|, folderField)
      ensures successCallbacks == old(successCallbacks) + Successes(|files|, succeeded)
      ensures alerts == old(alerts) + FailureAlerts(files, |files|, succeeded)
      ensures uploading == old(uploading) && progress == old(progress)
    {
      var i := 0;
      while i < |files|
        invariant 0 <= i <= |files|
        invariant uploading == old(uploading) && progress == old(progress)
        invariant sent == old(sent) + UploadRequests(files, i, folderField)
        invariant successCallbacks == old(successCallbacks) + Successes(i, succeeded)
        invariant alerts == old(alerts) + FailureAlerts(files, i, succeeded)
      {
        UploadOne(files[i], i, folderField, succeeded);
        i := i + 1;
      }
    }

    /**
     * `onDrop`. Without a token only an alert is raised. Otherwise each file
     * is posted in turn; the i-th upload succeeds when `succeeded(i)`, a
     * success calls `onUploadSuccess` once and a failure alerts and moves on
     * to the next file; afterwards `uploading` is false and `progress` 0.
     */
    method OnDrop(acceptedFiles: seq<DroppedFile>, folderId: Option<string>, token: Option<string>,
                  succeeded: nat -> bool)
      modifies this
      ensures token.None? || token == Some("") ==>
        && alerts == old(alerts) + [NotAuthenticated]
        && uploading == old(uploading) && progress == old(progress)
        && sent == old(sent) && successCallbacks == old(successCallbacks)
      ensures token.Some? && token != Some("") ==>
        && sent == old(sent) + UploadRequests(acceptedFiles, |acceptedFiles|, FolderField(folderId))
        && successCallbacks == old(successCallbacks) + Successes(|acceptedFiles|, succeeded)
        && alerts == old(alerts) + FailureAlerts(acceptedFiles, |acceptedFiles|, succeeded)
        && !uploading && progress == 0
    {
      if token.None? || token == Some("") {
        alerts := alerts + [NotAuthenticated];
        return;
      }
      uploading := true;
      UploadAll(acceptedFiles, FolderField(folderId), succeeded);
      uploading := false;
      progress := 0;
    }
  }
}
