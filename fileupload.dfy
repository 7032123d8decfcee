/** The image upload widget of src/components/ui/FileUpload.tsx: the
    validation of a chosen file, the storage path it is uploaded under, the
    simulated progress bar, and the selection, drop and reset handlers.
    The clock, the storage call and the file reader are parameters or
    separate events. */
module FileUpload {
  import opened Common
  import opened Validations

  /** A chosen file: name, size in bytes and MIME type. */
  datatype UploadFile = UploadFile(name: string, size: int, mimeType: string)

  function Info(f: UploadFile): FileInfo {
    FileInfo(f.size, f.mimeType)
  }

  const TooLarge := "File size must be less than 5MB"
  const WrongType := "Only JPEG, PNG, and WebP images are allowed"
  const AltTooShort := "Alt text must be at least 3 characters"
  const AltTooLong := "Alt text too long"

  /** The messages `fileUploadSchema` reports for a `File`, in the order the
      schema checks them: the file's refinements, then the alt text. */
  function Issues(f: UploadFile, altText: Option<string>): (r: seq<string>)
    ensures r == [] <==> ValidFileUpload(FileUploadInput(Some(Info(f)), altText))
  {
    (if f.size <= MaxUploadBytes then [] else [TooLarge])
    + (if f.mimeType in AllowedImageTypes then [] else [WrongType])
    + (if altText.Some? && |altText.value| < 3 then [AltTooShort] else [])
    + (if altText.Some? && |altText.value| > 100 then [AltTooLong] else [])
  }

  /** `issues[0]?.message`, or no error. */
  function FirstIssue(issues: seq<string>): (r: Option<string>)
    ensures r.None? <==> issues == []
    ensures r.Some? ==> r.value == issues[0]
  {
    if issues == [] then None else Some(issues[0])
  }

  /** `validateFile` as written: the schema is given an empty alt text. */
  function ValidateFileAsWritten(f: UploadFile): Option<string> {
    FirstIssue(Issues(f, Some("")))
  }

  /** As written every file is refused: a JPEG of one kilobyte is reported
      as having too short an alt text, and the widget can never select a
      file. */
  lemma ValidateFileAsWrittenRefusesAll(f: UploadFile)
    ensures ValidateFileAsWritten(f).Some?
    ensures f.size <= MaxUploadBytes && f.mimeType in AllowedImageTypes ==> ValidateFileAsWritten(f) == Some(AltTooShort)
    ensures ValidateFileAsWritten(UploadFile("dish.jpg", 1024, "image/jpeg")) == Some(AltTooShort)
  {
    assert AllowedImageTypes[0] == "image/jpeg";
  }

  /** `validateFile` as intended: the alt text is left out, so the file's
      own checks decide. */
  function ValidateFile(f: UploadFile): (r: Option<string>)
    ensures r.None? <==> f.size <= MaxUploadBytes && f.mimeType in AllowedImageTypes
    ensures r.None? <==> ValidFileUpload(FileUploadInput(Some(Info(f)), None))
    ensures f.size > MaxUploadBytes ==> r == Some(TooLarge)
    ensures f.size <= MaxUploadBytes && f.mimeType !in AllowedImageTypes ==> r == Some(WrongType)
  {
    FirstIssue(Issues(f, None))
  }

  // ---------------------------------------------------------------------------
  // The storage path

  /** `[a-zA-Z0-9.-]`. */
  predicate IsPathChar(c: char) {
    IsAlphanumeric(c) || c == '.' || c == '-'
  }

  /** `name.replace(/[^a-zA-Z0-9.-]/g, '_')`. */
  function Sanitize(name: string): (r: string)
    ensures |r| == |name|
  {
    if name == [] then [] else [if IsPathChar(name[0]) then name[0] else '_'] + Sanitize(name[1..])
  }

  /** Sanitising keeps the allowed characters where they are, puts '_' for
      every other one, leaves only allowed characters or '_', and a
      sanitised name stays as it is. */
  lemma {:induction false} SanitizeSpec(name: string)
    ensures forall i :: 0 <= i < |name| ==>
              Sanitize(name)[i] == (if IsPathChar(name[i]) then name[i] else '_')
    ensures forall i :: 0 <= i < |name| ==> IsPathChar(Sanitize(name)[i]) || Sanitize(name)[i] == '_'
    ensures Sanitize(Sanitize(name)) == Sanitize(name)
  {
    if name != [] {
      SanitizeSpec(name[1..]);
      var r := Sanitize(name);
      assert r == [r[0]] + Sanitize(name[1..]);
      forall i | 0 < i < |name|
        ensures r[i] == (if IsPathChar(name[i]) then name[i] else '_')
      {
        assert r[i] == Sanitize(name[1..])[i - 1];
        assert name[1..][i - 1] == name[i];
      }
      assert Sanitize(r) == [Sanitize(r)[0]] + Sanitize(r[1..]);
      assert r[1..] == Sanitize(name[1..]);
    }
  }

  const Folder := "menu-items/"

  /** `generateFilePath`, with `Date.now()` as `now`. */
  function FilePath(now: nat, f: UploadFile): string {
    Folder + Decimal(now) + "_" + Sanitize(f.name)
  }

  /** The path starts with the folder, then the time stamp, then '_' and
      the sanitised name; past the folder it has no '/', so every upload
      lands directly in the folder. */
  lemma FilePathSpec(now: nat, f: UploadFile)
    ensures var p := FilePath(now, f);
            var d := Decimal(now);
            IsPrefix(Folder, p)
            && p[|Folder|..|Folder| + |d|] == d
            && p[|Folder| + |d|] == '_'
            && p[|Folder| + |d| + 1..] == Sanitize(f.name)
            && |p| == |Folder| + |d| + 1 + |f.name|
            && '/' !in p[|Folder|..]
  {
    var d := Decimal(now);
    var n := Sanitize(f.name);
    var p := FilePath(now, f);
    PathLayout(Folder, d, n);
    SanitizeSpec(f.name);
    NoSlashAfterFolder(d, n);
  }

  /** Helper: where the parts of `a + d + "_" + n` lie. */
  lemma PathLayout(a: string, d: string, n: string)
    ensures var p := a + d + "_" + n;
            |p| == |a| + |d| + 1 + |n|
            && p[..|a|] == a && p[|a|..] == d + "_" + n
            && p[|a|..|a| + |d|] == d && p[|a| + |d|] == '_' && p[|a| + |d| + 1..] == n
  {
    var p := a + d + "_" + n;
    var rest := d + "_" + n;
    assert p == a + rest;
    assert p[|a|..] == rest;
    assert p[|a|..|a| + |d|] == rest[..|d|];
    assert p[|a| + |d| + 1..] == rest[|d| + 1..];
  }

  /** Helper: digits, '_' and sanitised characters contain no '/'. */
  lemma NoSlashAfterFolder(d: string, n: string)
    requires AllDigits(d)
    requires forall i :: 0 <= i < |n| ==> IsPathChar(n[i]) || n[i] == '_'
    ensures '/' !in d + "_" + n
  {
    var rest := d + "_" + n;
    forall i | 0 <= i < |rest|
      ensures rest[i] != '/'
    {
      if i < |d| {
        assert rest[i] == d[i];
      } else if i > |d| {
        assert rest[i] == n[i - |d| - 1];
      }
    }
  }

  // ---------------------------------------------------------------------------
  // The simulated progress

  /** One tick of the progress interval. */
  function Step(prev: int): int {
    if prev + 20 < 90 then prev + 20 else 90
  }

  /** The bar after `n` ticks from `p`. */
  function Ticks(p: int, n: nat): int
    decreases n
  {
    if n == 0 then p else Ticks(Step(p), n - 1)
  }

  /** From anywhere up to 90 a tick never goes back and never passes 90;
      from 0 the bar stands at 20 per tick until it stays at 90. */
  lemma {:induction false} ProgressSpec(p: int, n: nat)
    ensures 0 <= p <= 90 ==> p <= Step(p) <= 90
    ensures 0 <= p <= 90 ==> p <= Ticks(p, n) <= 90
    ensures Ticks(0, n) == (if 20 * n < 90 then 20 * n else 90)
  {
    TicksBounded(p, n);
    TicksFromZero(0, n);
  }

  lemma {:induction false} TicksBounded(p: int, n: nat)
    ensures 0 <= p <= 90 ==> p <= Ticks(p, n) <= 90
    decreases n
  {
    if n > 0 {
      TicksBounded(Step(p), n - 1);
    }
  }

  lemma {:induction false} TicksFromZero(k: nat, n: nat)
    ensures Ticks(if 20 * k < 90 then 20 * k else 90, n) == (if 20 * (k + n) < 90 then 20 * (k + n) else 90)
    decreases n
  {
    if n > 0 {
      TicksFromZero(k + 1, n - 1);
    }
  }

  // ---------------------------------------------------------------------------
  // The widget

  /** What the storage call answers: the public URL, or a failure with the
      error's message when it is an `Error`. */
  datatype UploadReply = Uploaded(url: string) | UploadFailed(message: Option<string>)

  class Uploader {
    const disabled: bool
    var uploading: bool
    var dragActive: bool
    var progress: int
    var selectedFile: Option<UploadFile>
    var previewUrl: Option<string>
    /** The progress intervals still running. */
    var intervals: nat

    constructor (disabled: bool)
      ensures this.disabled == disabled
      ensures !uploading && !dragActive && progress == 0 && selectedFile.None? && previewUrl.None?
      ensures intervals == 0
    {
      intervals := 0;
      this.disabled := disabled;
      uploading := false;
      dragActive := false;
      progress := 0;
      selectedFile := None;
      previewUrl := None;
    }

    /** `resetUploadState`. */
    method ResetUploadState()
      modifies this
      ensures selectedFile.None? && previewUrl.None? && progress == 0
      ensures uploading == old(uploading) && dragActive == old(dragActive)
      ensures intervals == old(intervals)
    {
      selectedFile := None;
      previewUrl := None;
      progress := 0;
    }

    /** `handleFileSelection` as written: the file is checked by
        `validateFile`, which refuses every file, so the refusal is reported
        and nothing is ever selected. */
    method HandleFileSelection(f: UploadFile) returns (error: Option<string>)
      modifies this
      ensures error == ValidateFileAsWritten(f)
      ensures error.Some? && selectedFile == old(selectedFile)
      ensures previewUrl == old(previewUrl) && progress == old(progress)
      ensures uploading == old(uploading) && dragActive == old(dragActive)
      ensures intervals == old(intervals)
    {
      error := ValidateFileAsWritten(f);
      if error.None? {
        selectedFile := Some(f);
      }
      ValidateFileAsWrittenRefusesAll(f);
    }

    /** `handleFileSelection` with the intended validation: a refused file
        is reported and nothing is selected; an accepted one becomes the
        selection. */
    method HandleFileSelectionIntended(f: UploadFile) returns (error: Option<string>)
      modifies this
      ensures error == ValidateFile(f)
      ensures error.Some? ==> selectedFile == old(selectedFile)
      ensures error.None? ==> selectedFile == Some(f)
      ensures previewUrl == old(previewUrl) && progress == old(progress)
      ensures uploading == old(uploading) && dragActive == old(dragActive)
      ensures intervals == old(intervals)
    {
      error := ValidateFile(f);
      if error.Some? {
        return;
      }
      selectedFile := Some(f);
    }

    /** The file reader's `onload` for an image. */
    method PreviewLoaded(dataUrl: string)
      modifies this
      ensures previewUrl == Some(dataUrl)
      ensures selectedFile == old(selectedFile) && progress == old(progress)
      ensures uploading == old(uploading) && dragActive == old(dragActive)
      ensures intervals == old(intervals)
    {
      previewUrl := Some(dataUrl);
    }

    /** `handleDrag`. */
    method HandleDrag(eventType: string)
      modifies this
      ensures dragActive == (if eventType == "dragenter" || eventType == "dragover" then true
                             else if eventType == "dragleave" then false
                             else old(dragActive))
      ensures selectedFile == old(selectedFile) && previewUrl == old(previewUrl)
      ensures progress == old(progress) && uploading == old(uploading)
      ensures intervals == old(intervals)
    {
      if eventType == "dragenter" || eventType == "dragover" {
        dragActive := true;
      } else if eventType == "dragleave" {
        dragActive := false;
      }
    }

    /** `handleDrop`: ignored while disabled; otherwise the first dropped
        file goes through the selection, the rest are dropped. As written,
        a dropped file is always refused. */
    method HandleDrop(files: seq<UploadFile>) returns (error: Option<string>)
      modifies this
      ensures !dragActive
      ensures selectedFile == old(selectedFile)
      ensures disabled || files == [] ==> error.None?
      ensures !disabled && files != [] ==> error == ValidateFileAsWritten(files[0]) && error.Some?
      ensures previewUrl == old(previewUrl) && progress == old(progress) && uploading == old(uploading)
      ensures intervals == old(intervals)
    {
      dragActive := false;
      error := None;
      if disabled {
        return;
      }
      if |files| > 0 {
        error := HandleFileSelection(files[0]);
      }
    }

    /** `handleFileInputChange`: the first chosen file goes through the
        selection; as written it is always refused. */
    method HandleFileInputChange(files: Option<seq<UploadFile>>) returns (error: Option<string>)
      modifies this
      ensures selectedFile == old(selectedFile)
      ensures files.None? || files.value == [] ==> error.None?
      ensures files.Some? && files.value != [] ==> error == ValidateFileAsWritten(files.value[0]) && error.Some?
      ensures previewUrl == old(previewUrl) && progress == old(progress)
      ensures uploading == old(uploading) && dragActive == old(dragActive)
      ensures intervals == old(intervals)
    {
      error := None;
      if files.Some? && |files.value| > 0 {
        error := HandleFileSelection(files.value[0]);
      }
    }

    /** The start of `handleUpload`: nothing without a selection; otherwise
        uploading begins at 0 under the path for the current time. */
    method StartUpload(now: nat) returns (path: Option<string>)
      modifies this
      ensures selectedFile == old(selectedFile) && previewUrl == old(previewUrl) && dragActive == old(dragActive)
      ensures old(selectedFile).None? ==> path.None? && uploading == old(uploading) && progress == old(progress)
      ensures old(selectedFile).Some? ==> path == Some(FilePath(now, old(selectedFile).value)) && uploading && progress == 0
      ensures intervals == old(intervals) + (if old(selectedFile).Some? then 1 else 0)
    {
      if selectedFile.None? {
        path := None;
        return;
      }
      uploading := true;
      progress := 0;
      path := Some(FilePath(now, selectedFile.value));
      intervals := intervals + 1;
    }

    /** One firing of a running progress interval; with none running the
        bar stands still. */
    method Tick()
      modifies this
      ensures progress == (if old(intervals) > 0 then Step(old(progress)) else old(progress))
      ensures selectedFile == old(selectedFile) && previewUrl == old(previewUrl)
      ensures uploading == old(uploading) && dragActive == old(dragActive) && intervals == old(intervals)
    {
      if intervals > 0 {
        progress := if progress + 20 < 90 then progress + 20 else 90;
      }
    }

    /** The storage call returns: on success the interval is cleared and the
        bar jumps to 100; on failure the error is reported and the widget is
        reset, but the interval is left running. Uploading ends either way. */
    method UploadReturned(reply: UploadReply) returns (error: Option<string>)
      modifies this
      ensures !uploading && dragActive == old(dragActive)
      ensures intervals == (if reply.Uploaded? && old(intervals) > 0 then old(intervals) - 1 else old(intervals))
      ensures reply.Uploaded? ==> error.None? && progress == 100
                                  && selectedFile == old(selectedFile) && previewUrl == old(previewUrl)
      ensures reply.UploadFailed? ==> error == Some(if reply.message.Some? then reply.message.value else "Upload failed")
                                      && selectedFile.None? && previewUrl.None? && progress == 0
    {
      match reply {
        case Uploaded(_) =>
          error := None;
          if intervals > 0 {
            intervals := intervals - 1;
          }
          progress := 100;
        case UploadFailed(message) =>
          error := Some(if message.Some? then message.value else "Upload failed");
          ResetUploadState();
      }
      uploading := false;
    }

    /** The delayed completion: `onUploadComplete(url, path)` and a reset. */
    method CompleteUpload(url: string, path: string) returns (completed: (string, string))
      modifies this
      ensures completed == (url, path)
      ensures selectedFile.None? && previewUrl.None? && progress == 0
      ensures uploading == old(uploading) && dragActive == old(dragActive)
      ensures intervals == old(intervals)
    {
      completed := (url, path);
      ResetUploadState();
    }
  }

  /** A failed upload leaves its progress interval running: after the
      failure has reset the widget, the next firing moves the bar again
      although nothing is selected or uploading. */
  method FailedUploadKeepsTicking(f: UploadFile) returns (progress: int, selected: Option<UploadFile>, uploading: bool)
    requires f.size <= MaxUploadBytes && f.mimeType in AllowedImageTypes
    ensures selected.None? && !uploading && progress == 20
  {
    var u := new Uploader(false);
    var e := u.HandleFileSelectionIntended(f);
    var path := u.StartUpload(0);
    e := u.UploadReturned(UploadFailed(None));
    u.Tick();
    progress, selected, uploading := u.progress, u.selectedFile, u.uploading;
  }
}
