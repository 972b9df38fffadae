/**
 * The video upload widget: it accepts a video file of a known type and at
 * most 5 GiB, proposes a title from the file name, runs the upload (given
 * here as its progress reports and its outcome) and hands the new video to
 * the form that embeds it.
 */
module VideoUpload {
  import opened JsValues
  import Text

  /** The properties of the picked `File` the widget reads. */
  datatype File = File(name: string, mimeType: string, size: nat)

  const AllowedTypes: seq<string> :=
    ["video/mp4", "video/quicktime", "video/x-msvideo", "video/x-matroska", "video/webm"]

  /** 5 GiB */
  const MaxSize: nat := 5 * 1024 * 1024 * 1024

  datatype FileCheck = Accepted | UnsupportedType | TooLarge

  /** The checks of `handleFileSelect`: the type first, then the size. */
  function CheckFile(f: File): (r: FileCheck)
    ensures r == Accepted <==> f.mimeType in AllowedTypes && f.size <= MaxSize
    ensures r == UnsupportedType <==> f.mimeType !in AllowedTypes
    ensures r == TooLarge <==> f.mimeType in AllowedTypes && f.size > MaxSize
  {
    if f.mimeType !in AllowedTypes then UnsupportedType
    else if f.size > MaxSize then TooLarge
    else Accepted
  }

  /** A character the extension pattern `[^/.]` accepts. */
  predicate IsPlain(c: char) {
    c != '.' && c != '/'
  }

  /** What `/\.[^/.]+$/` matches after its dot: one or more plain characters. */
  predicate IsExtension(ext: string) {
    ext != [] && forall i :: 0 <= i < |ext| ==> IsPlain(ext[i])
  }

  /** The number of plain characters at the end of `s`. */
  function PlainSuffixLen(s: string): (n: nat)
    ensures n <= |s|
    ensures forall i :: |s| - n <= i < |s| ==> IsPlain(s[i])
    ensures n < |s| ==> !IsPlain(s[|s| - n - 1])
  {
    if s == [] || !IsPlain(s[|s| - 1]) then 0 else PlainSuffixLen(s[..|s| - 1]) + 1
  }

  /** `name.replace(/\.[^/.]+$/, "")`: drops a final dot and the plain
      characters behind it, when there are some; otherwise keeps the name. */
  function StripExtension(name: string): (r: string)
    ensures r == name || (|r| < |name| && name[..|r|] == r && name[|r|] == '.' && IsExtension(name[|r| + 1..]))
  {
    var n := PlainSuffixLen(name);
    if 0 < n < |name| && name[|name| - n - 1] == '.' then name[..|name| - n - 1] else name
  }

  lemma {:induction false} PlainSuffixAfterDot(base: string, ext: string)
    requires forall i :: 0 <= i < |ext| ==> IsPlain(ext[i])
    ensures PlainSuffixLen(base + ['.'] + ext) == |ext|
    decreases |ext|
  {
    var s := base + ['.'] + ext;
    if ext != [] {
      assert s[..|s| - 1] == base + ['.'] + ext[..|ext| - 1];
      PlainSuffixAfterDot(base, ext[..|ext| - 1]);
    }
  }

  /** The pattern matches at most one place: whenever the name is a base, a
      dot and an extension, the base is what remains. */
  lemma StripExtensionFindsTheBase(base: string, ext: string)
    requires IsExtension(ext)
    ensures StripExtension(base + ['.'] + ext) == base
  {
    var s := base + ['.'] + ext;
    PlainSuffixAfterDot(base, ext);
    assert s[|s| - |ext| - 1] == '.';
    assert s[..|s| - |ext| - 1] == base;
  }

  /** A name whose last character is a dot or a slash, or that has no dot
      before its trailing plain characters, is kept whole. */
  lemma NamesWithoutExtensionAreKept(name: string)
    requires name == [] || !IsPlain(name[|name| - 1]) || '.' !in name
    ensures StripExtension(name) == name
  {
  }

  /** `getStageText` */
  function StageText(stage: string): (text: string)
    ensures text != "" <==> stage in {"requesting_url", "uploading", "saving", "completed"}
  {
    if stage == "requesting_url" then "درخواست URL آپلود..."
    else if stage == "uploading" then "در حال آپلود..."
    else if stage == "saving" then "ذخیره اطلاعات..."
    else if stage == "completed" then "تکمیل شد!"
    else ""
  }

  /** Each known stage has a label of its own. */
  lemma StageTextsAreDistinct(a: string, b: string)
    requires StageText(a) != "" && a != b
    ensures StageText(a) != StageText(b)
  {
  }

  datatype SizeUnit = B | KB | MB | GB

  function UnitBytes(u: SizeUnit): nat {
    match u
    case B => 1
    case KB => 1024
    case MB => 1024 * 1024
    case GB => 1024 * 1024 * 1024
  }

  /** The unit `formatFileSize` writes a size in. */
  function SizeUnitOf(bytes: int): (u: SizeUnit)
    ensures u == B <==> bytes < 1024
    ensures u == KB <==> 1024 <= bytes < 1024 * 1024
    ensures u == MB <==> 1024 * 1024 <= bytes < 1024 * 1024 * 1024
    ensures u == GB <==> 1024 * 1024 * 1024 <= bytes
  {
    if bytes < 1024 then B
    else if bytes < 1024 * 1024 then KB
    else if bytes < 1024 * 1024 * 1024 then MB
    else GB
  }

  /** The unit is the largest one the size reaches, so the printed figure
      is at least 1 and, below gigabytes, under 1024. */
  lemma SizeUnitScalesIntoRange(bytes: int)
    requires bytes >= 1
    ensures UnitBytes(SizeUnitOf(bytes)) <= bytes
    ensures SizeUnitOf(bytes) != GB ==> bytes < 1024 * UnitBytes(SizeUnitOf(bytes))
  {
  }

  /** A larger size never gets a smaller unit. */
  lemma SizeUnitIsMonotone(a: int, b: int)
    requires a <= b
    ensures UnitBytes(SizeUnitOf(a)) <= UnitBytes(SizeUnitOf(b))
  {
  }

  /** One call of the upload's progress callback. */
  datatype ProgressReport = ProgressReport(stage: string, progress: int)

  /** How the upload ended: the saved video, or an error. */
  datatype UploadOutcome = Uploaded(videoId: string, originalPath: string) | UploadFailed(message: string)

  /** What `handleUpload` sends: the file and the trimmed title. */
  datatype UploadRequest = UploadRequest(file: File, title: string)

  /** The guard of `handleUpload` (and of the upload button). */
  function CanUpload(selected: Option<File>, title: string): (ok: bool)
    ensures ok <==> selected.Some? && !Text.AllSpace(title)
  {
    Text.TrimEmptyIffAllSpace(title);
    selected.Some? && Text.Trim(title) != ""
  }

  /** The stage and progress shown after the callback was called with
      `reports`, starting from `stage` and `progress`. */
  function AfterReports(stage: string, progress: int, reports: seq<ProgressReport>): (r: (string, int))
    ensures reports == [] ==> r == (stage, progress)
    ensures reports != [] ==> r == (reports[|reports| - 1].stage, reports[|reports| - 1].progress)
    decreases |reports|
  {
    if reports == [] then (stage, progress)
    else AfterReports(reports[0].stage, reports[0].progress, reports[1..])
  }

  /** An item of the list of ready videos the widget offers. */
  datatype VideoItem = VideoItem(videoId: string, originalPath: string)

  /** `i` is the first position of `items` holding the id `chosen`. */
  predicate FirstWithId(items: seq<VideoItem>, chosen: string, i: int) {
    0 <= i < |items| && items[i].videoId == chosen &&
    forall j :: 0 <= j < i ==> items[j].videoId != chosen
  }

  /** `items.find(v => v.videoId === chosen)`: the first item with that id. */
  function FindVideo(items: seq<VideoItem>, chosen: string): (r: Option<VideoItem>)
    ensures r.None? <==> forall i :: 0 <= i < |items| ==> items[i].videoId != chosen
    ensures r.Some? ==> r.value.videoId == chosen && exists i :: FirstWithId(items, chosen, i) && items[i] == r.value
  {
    if items == [] then None
    else if items[0].videoId == chosen then Some(items[0])
    else
      var rest := FindVideo(items[1..], chosen);
      assert rest.Some? ==> exists i :: FirstWithId(items, chosen, i) && items[i] == rest.value by {
        if rest.Some? {
          var k :| FirstWithId(items[1..], chosen, k) && items[1..][k] == rest.value;
          assert items[k + 1] == rest.value;
          forall j | 0 <= j < k + 1 ensures items[j].videoId != chosen {
            if j > 0 { assert items[j] == items[1..][j - 1]; }
          }
          assert FirstWithId(items, chosen, k + 1);
        }
      }
      rest
  }

  /** The select of existing videos: choosing an id that is on the list
      hands that video's id and path to the form; anything else hands
      nothing. */
  function SelectExisting(items: seq<VideoItem>, chosen: string): (picked: Option<(string, string)>)
    ensures picked.Some? <==> exists i :: 0 <= i < |items| && items[i].videoId == chosen
    ensures picked.Some? ==> picked.value.0 == chosen
    ensures picked.Some? ==>
      exists i :: FirstWithId(items, chosen, i) && picked.value == (items[i].videoId, items[i].originalPath)
  {
    match FindVideo(items, chosen)
    case None => None
    case Some(v) => Some((v.videoId, v.originalPath))
  }

  /** The remove button hands empty strings to the form. */
  const RemovedVideo: (string, string) := ("", "")

  class Uploader {
    var selectedFile: Option<File>
    var title: string
    var uploadStage: string
    var uploadProgress: int
    var showUploadForm: bool

    /** The state a widget starts in, and returns to after an upload. */
    predicate IsInitial()
      reads this
    {
      selectedFile == None && title == "" && uploadStage == "" && uploadProgress == 0 && !showUploadForm
    }

    constructor ()
      ensures IsInitial()
    {
      selectedFile, title, uploadStage, uploadProgress, showUploadForm := None, "", "", 0, false;
    }

    /** `handleFileSelect`: `file` is the first picked file, if any. A
        rejected file changes nothing; an accepted one is selected, and the
        title, when empty, becomes the file name without its extension. */
    method HandleFileSelect(file: Option<File>) returns (check: Option<FileCheck>)
      modifies this`selectedFile, this`title
      ensures file.None? ==> check.None?
      ensures file.Some? ==> check == Some(CheckFile(file.value))
      ensures check != Some(Accepted) ==> selectedFile == old(selectedFile) && title == old(title)
      ensures check == Some(Accepted) ==> selectedFile == file
      ensures check == Some(Accepted) && old(title) == "" ==> title == StripExtension(file.value.name)
      ensures check == Some(Accepted) && old(title) != "" ==> title == old(title)
    {
      if file.None? {
        return None;
      }
      var f := file.value;
      if f.mimeType !in AllowedTypes {
        return Some(UnsupportedType);
      }
      if f.size > MaxSize {
        return Some(TooLarge);
      }
      selectedFile := file;
      if title == "" {
        title := StripExtension(f.name);
      }
      check := Some(Accepted);
    }

    /** The title input's change handler. */
    method SetTitle(text: string)
      modifies this`title
      ensures title == text
    {
      title := text;
    }

    /** The button that shows or hides the upload form. */
    method ToggleUploadForm()
      modifies this`showUploadForm
      ensures showUploadForm == !old(showUploadForm)
    {
      showUploadForm := !showUploadForm;
    }

    /** The upload's `onProgress` callback, called once per report. */
    method ShowProgress(reports: seq<ProgressReport>)
      modifies this`uploadStage, this`uploadProgress
      ensures (uploadStage, uploadProgress) == AfterReports(old(uploadStage), old(uploadProgress), reports)
    {
      var i := 0;
      while i < |reports|
        invariant 0 <= i <= |reports|
        invariant (uploadStage, uploadProgress) == AfterReports(old(uploadStage), old(uploadProgress), reports[..i])
      {
        uploadStage, uploadProgress := reports[i].stage, reports[i].progress;
        i := i + 1;
        assert reports[..i][..i - 1] == reports[..i - 1];
      }
      assert reports[..i] == reports;
    }

    /** `handleUpload`. Without a file or with a blank title nothing is
        sent and nothing changes. Otherwise the file goes out with the
        trimmed title, each progress report is shown as it comes, and on
        success the widget returns to its initial state and hands the new
        video's id and path to the form. */
    method HandleUpload(reports: seq<ProgressReport>, outcome: UploadOutcome)
      returns (sent: Option<UploadRequest>, picked: Option<(string, string)>)
      modifies this
      ensures sent.Some? <==> CanUpload(old(selectedFile), old(title))
      ensures sent.Some? ==> sent.value == UploadRequest(old(selectedFile).value, Text.Trim(old(title)))
      ensures sent.None? ==>
        picked.None? && selectedFile == old(selectedFile) && title == old(title) &&
        uploadStage == old(uploadStage) && uploadProgress == old(uploadProgress) &&
        showUploadForm == old(showUploadForm)
      ensures sent.Some? && outcome.Uploaded? ==>
        IsInitial() && picked == Some((outcome.videoId, outcome.originalPath))
      ensures sent.Some? && outcome.UploadFailed? ==>
        picked.None? && selectedFile == old(selectedFile) && title == old(title) &&
        showUploadForm == old(showUploadForm) &&
        (uploadStage, uploadProgress) == AfterReports(old(uploadStage), old(uploadProgress), reports)
    {
      if !CanUpload(selectedFile, title) {
        return None, None;
      }
      sent := Some(UploadRequest(selectedFile.value, Text.Trim(title)));
      ShowProgress(reports);
      if outcome.Uploaded? {
        Reset();
        picked := Some((outcome.videoId, outcome.originalPath));
      } else {
        picked := None;
      }
    }

    /** Back to the initial state after a successful upload. */
    method Reset()
      modifies this
      ensures IsInitial()
    {
      selectedFile, title, uploadStage, uploadProgress, showUploadForm := None, "", "", 0, false;
    }
  }
}
