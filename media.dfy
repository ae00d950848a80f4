/**
 * Client-side media-type classification of the dashboard's file list:
 * `getExtension`, the extension and MIME tables, and the `filteredFiles`
 * filter (src/pages/Dashboard.js:417-467), plus the rule that folders are
 * shown only for the `'all'` media type (src/pages/Dashboard.js:679).
 */
module Media {
  import opened Wrappers
  import opened Text
  import opened Seqs
  import opened Resources

  const ImageExtensions: seq<string> := [".jpg", ".jpeg", ".png", ".gif", ".webp", ".bmp", ".ico"]
  const VideoExtensions: seq<string> := [".mp4", ".webm", ".mov", ".avi", ".mkv"]
  const DocumentExtensions: seq<string> := [".pdf", ".doc", ".docx", ".xls", ".xlsx", ".txt"]
  const DocumentMimeTypes: seq<string> := [
    "application/pdf",
    "application/msword",
    "application/vnd.openxmlformats-officedocument.wordprocessingml.document",
    "application/vnd.ms-excel",
    "application/vnd.openxmlformats-officedocument.spreadsheetml.sheet",
    "text/plain"]

  /** The media types the sidebar offers; any other string keeps every file. */
  const All := "all"
  const Image := "image"
  const Video := "video"
  const Document := "document"
  const Other := "other"

  const TwoToThe32: nat := 0x1_0000_0000

  /** ECMAScript ToUint32 on an integer, which is what `x >>> 0` computes. */
  function ToUint32(x: int): (r: nat)
    ensures r < TwoToThe32
    ensures 0 <= x < TwoToThe32 ==> r == x
    ensures (x - r) % TwoToThe32 == 0
  {
    x % TwoToThe32
  }

  /** `s.slice(start)` for a non-negative start: empty once start reaches the length. */
  function SliceFrom(s: string, start: nat): string {
    if start >= |s| then "" else s[start..]
  }

  /**
   * `filename.slice(((filename.lastIndexOf(".") - 1) >>> 0) + 2).toLowerCase()`.
   * With no dot, lastIndexOf gives -1 and the slice starts at 2^32; with the
   * only dot at index 0 it starts at 2^32 + 1; otherwise just after the last dot.
   */
  function GetExtension(filename: string): string {
    ToLower(SliceFrom(filename, ToUint32(LastIndexOf(filename, '.') - 1) + 2))
  }

  /** `k` is the position of the last dot of `s`. */
  predicate LastDotAt(s: string, k: int) {
    0 <= k < |s| && s[k] == '.' && forall j :: k < j < |s| ==> s[j] != '.'
  }

  /**
   * For any name shorter than 2^32 characters (every string a JavaScript
   * engine can hold), the extension is empty when no dot follows index 0,
   * and otherwise is the lower-cased text after the last dot.
   */
  lemma GetExtensionSpec(filename: string)
    requires |filename| <= TwoToThe32
    ensures (forall i :: 1 <= i < |filename| ==> filename[i] != '.') ==> GetExtension(filename) == ""
    ensures forall k :: 1 <= k && LastDotAt(filename, k) ==> GetExtension(filename) == ToLower(filename[k + 1..])
  {
    var d := LastIndexOf(filename, '.');
    if d == -1 {
      assert ToUint32(d - 1) == TwoToThe32 - 2;
    } else if d == 0 {
      assert ToUint32(d - 1) == TwoToThe32 - 1;
    } else {
      assert ToUint32(d - 1) == d - 1;
      forall k | 1 <= k && LastDotAt(filename, k) ensures k == d {
      }
    }
  }

  function Mime(f: Entry): string {
    f.mimeType.GetOr("")
  }

  function Name(f: Entry): string {
    f.name.GetOr("")
  }

  /** `'.' + getExtension(name)`: the text looked up in the extension tables. */
  function DotExtension(f: Entry): string {
    "." + GetExtension(Name(f))
  }

  predicate IsImage(f: Entry) {
    StartsWith(Mime(f), "image/") || DotExtension(f) in ImageExtensions
  }

  predicate IsVideo(f: Entry) {
    StartsWith(Mime(f), "video/") || DotExtension(f) in VideoExtensions
  }

  predicate IsDocument(f: Entry) {
    Mime(f) in DocumentMimeTypes || DotExtension(f) in DocumentExtensions
  }

  predicate IsKnownMediaType(mediaType: string) {
    mediaType == Image || mediaType == Video || mediaType == Document || mediaType == Other
  }

  /** The callback given to `files.filter`. */
  predicate Keeps(mediaType: string, f: Entry) {
    if mediaType == All then true
    else if mediaType == Image then IsImage(f)
    else if mediaType == Video then IsVideo(f)
    else if mediaType == Document then IsDocument(f)
    else if mediaType == Other then !IsImage(f) && !IsVideo(f) && !IsDocument(f)
    else true
  }

  function FilteredFiles(files: seq<Entry>, mediaType: string): seq<Entry> {
    Filter(files, (f: Entry) => Keeps(mediaType, f))
  }

  /** Folders are rendered only under the `'all'` media type. */
  function VisibleFolders(folders: seq<Entry>, mediaType: string): (r: seq<Entry>)
    ensures mediaType == All ==> r == folders
    ensures mediaType != All ==> r == []
  {
    if mediaType == All then folders else []
  }

  /** The filter only drops files; the survivors keep their relative order. */
  lemma FilteredFilesIsSubsequence(files: seq<Entry>, mediaType: string)
    ensures IsSubsequence(FilteredFiles(files, mediaType), files)
  {
    FilterIsSubsequence(files, (f: Entry) => Keeps(mediaType, f));
  }

  lemma FilteredFilesIdempotent(files: seq<Entry>, mediaType: string)
    ensures FilteredFiles(FilteredFiles(files, mediaType), mediaType) == FilteredFiles(files, mediaType)
  {
    FilterIdempotent(files, (f: Entry) => Keeps(mediaType, f));
  }

  /** `'all'` and any unrecognised media type keep the list as it is. */
  lemma AllOrUnknownKeepsEverything(files: seq<Entry>, mediaType: string)
    requires !IsKnownMediaType(mediaType)
    ensures FilteredFiles(files, mediaType) == files
  {
    FilterKeepsAll(files, (f: Entry) => Keeps(mediaType, f));
  }

  /** Which files each known media type keeps. */
  lemma FilteredFilesMembership(files: seq<Entry>, f: Entry)
    ensures f in FilteredFiles(files, Image) <==> f in files && IsImage(f)
    ensures f in FilteredFiles(files, Video) <==> f in files && IsVideo(f)
    ensures f in FilteredFiles(files, Document) <==> f in files && IsDocument(f)
    ensures f in FilteredFiles(files, Other) <==> f in files && !IsImage(f) && !IsVideo(f) && !IsDocument(f)
  {
    KeepsKnownType(f);
  }

  /** The callback for each known media type is that type's predicate. */
  lemma KeepsKnownType(f: Entry)
    ensures Keeps(Image, f) == IsImage(f) && Keeps(Video, f) == IsVideo(f)
    ensures Keeps(Document, f) == IsDocument(f)
    ensures Keeps(Other, f) == (!IsImage(f) && !IsVideo(f) && !IsDocument(f))
  {
    assert Image != All && Video != All && Video != Image;
    assert Document != All && Document != Image && Document != Video;
    assert Other != All && Other != Image && Other != Video && Other != Document;
  }

  /** `'other'` keeps exactly the listed files that none of image, video and document keeps. */
  lemma OtherIsComplement(files: seq<Entry>, f: Entry)
    requires f in files
    ensures f in FilteredFiles(files, Other) <==>
      f !in FilteredFiles(files, Image) && f !in FilteredFiles(files, Video) && f !in FilteredFiles(files, Document)
  {
    FilteredFilesMembership(files, f);
  }

  /** Filtering a list extended by a page is filtering the old list, then the page. */
  lemma FilteredFilesAppend(files: seq<Entry>, page: seq<Entry>, mediaType: string)
    ensures FilteredFiles(files + page, mediaType) == FilteredFiles(files, mediaType) + FilteredFiles(page, mediaType)
  {
    FilterAppend(files, page, (f: Entry) => Keeps(mediaType, f));
  }

  /** A file named `photo.JPG` without a MIME type is an image, by its extension. */
  lemma UpperCaseExtensionIsImage()
    ensures IsImage(Entry("f1", Some("photo.JPG"), None, None, None))
  {
    var f := Entry("f1", Some("photo.JPG"), None, None, None);
    var name := "photo.JPG";
    assert LastDotAt(name, 5);
    GetExtensionSpec(name);
    assert name[6..] == "JPG";
    var lower := ToLower("JPG");
    assert lower[0] == 'j' && lower[1] == 'p' && lower[2] == 'g';
    assert lower == "jpg";
    assert DotExtension(f) == ".jpg";
    assert ImageExtensions[0] == ".jpg";
  }

  /**
   * `clip.M\u212AV` (with the KELVIN SIGN, which lower-cases to `k`) and no MIME
   * type is a video, by its extension.
   */
  lemma KelvinExtensionIsVideo()
    ensures IsVideo(Entry("f2", Some("clip.M\U{212A}V"), None, None, None))
  {
    var f := Entry("f2", Some("clip.M\U{212A}V"), None, None, None);
    var name := "clip.M\U{212A}V";
    assert LastDotAt(name, 4);
    GetExtensionSpec(name);
    assert name[5..] == "M\U{212A}V";
    var lower := ToLower("M\U{212A}V");
    assert lower[0] == 'm' && lower[1] == 'k' && lower[2] == 'v';
    assert lower == "mkv";
    assert DotExtension(f) == ".mkv";
    assert VideoExtensions[4] == ".mkv";
  }

  /** A dot-file such as `.bashrc` has no extension. */
  lemma DotFileHasNoExtension()
    ensures GetExtension(".bashrc") == ""
  {
    var name := ".bashrc";
    assert forall i :: 1 <= i < |name| ==> name[i] != '.' by {
      assert name == ['.', 'b', 'a', 's', 'h', 'r', 'c'];
    }
    GetExtensionSpec(name);
  }

  /** No extension in the three tables is a lone dot. */
  lemma ShortExtensionIsUnknown(ext: string)
    requires |ext| <= 1
    ensures ext !in ImageExtensions && ext !in VideoExtensions && ext !in DocumentExtensions
  {
  }

  /** A file with neither an extension nor a MIME type is kept only by `'other'` (and `'all'`). */
  lemma UntypedFileIsOther(f: Entry)
    requires GetExtension(Name(f)) == "" && Mime(f) == ""
    ensures Keeps(Other, f) && !Keeps(Image, f) && !Keeps(Video, f) && !Keeps(Document, f)
  {
    KeepsKnownType(f);
    ShortExtensionIsUnknown(DotExtension(f));
    assert Mime(f) !in DocumentMimeTypes;
  }
}
