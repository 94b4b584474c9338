/** The drop zone for a swing video (src/components/upload/VideoUpload.tsx):
    the size gate in front of the upload, and the upload-progress record
    that moves from "uploading" to "completed" or "error". */
module VideoUpload {
  import opened Common
  import opened Types
  import opened Api
  import opened SwingHooks

  const MiB: nat := 1024 * 1024

  /** The default `maxSize`: 100 MiB. */
  const DefaultMaxSize: nat := 100 * MiB

  /** The default `acceptedTypes`. */
  const DefaultAcceptedTypes: seq<string> := ["video/mp4", "video/quicktime", "video/x-msvideo"]

  /** `Math.round(maxSize / (1024 * 1024))` for a whole number of bytes:
      halves round up. */
  function RoundToMiB(bytes: nat): (m: nat)
    ensures m * MiB <= bytes + MiB / 2 < (m + 1) * MiB
  {
    (bytes + MiB / 2) / MiB
  }

  function SizeLimitMessage(maxSize: nat): string {
    "File size must be less than " + NatToString(RoundToMiB(maxSize)) + "MB"
  }

  /** With the default limit the message names 100 MB. */
  lemma DefaultLimitMessage()
    ensures RoundToMiB(DefaultMaxSize) == 100
    ensures SizeLimitMessage(DefaultMaxSize) == "File size must be less than 100MB"
  {
    assert NatToString(100) == NatToString(10) + [DigitChar(0)];
    assert NatToString(10) == NatToString(1) + [DigitChar(0)];
  }

  /** `error instanceof Error ? error.message : 'Upload failed'` */
  function UploadErrorMessage(e: Thrown): string {
    if e.NonError? then "Upload failed" else e.message
  }

  /** `result.swing?.data?.id`: the id inside the `data` envelope of the
      created swing record, when the answer has one. */
  function CreatedSwingId(swing: Payload): (id: Option<string>)
    ensures swing.Record? && swing.data.Record? ==> id == swing.data.fields.id
    ensures !(swing.Record? && swing.data.Record?) ==> id == None
  {
    if swing.Record? && swing.data.Record? then swing.data.fields.id else None
  }

  /** The progress record is in one of the three states the drop handler
      writes: uploading at 0 with no file id, completed at 100, or failed at
      0 with a message and no file id. */
  predicate ProgressOk(p: UploadProgress) {
    match p.status
    case Uploading => p.progress == 0 && p.fileId == "" && p.error == None
    case Completed => p.progress == 100 && p.error == None
    case UploadError => p.progress == 0 && p.fileId == "" && p.error.Some?
    case ProcessingUpload => false
  }

  /** What one drop did besides updating the progress record. */
  datatype DropEffects = DropEffects(
    /** The progress shown while the upload runs, when one started. */
    during: Option<UploadProgress>,
    /** Arguments of `onUploadComplete` (file id, swing id), when called. */
    completed: Option<(string, Option<string>)>,
    /** Argument of `onUploadError`, when called. */
    reported: Option<string>)

  class VideoUploadView {
    var uploadProgress: Option<UploadProgress>

    predicate Valid()
      reads this
    {
      uploadProgress.Some? ==> ProgressOk(uploadProgress.value)
    }

    constructor ()
      ensures Valid() && uploadProgress == None
    {
      uploadProgress := None;
    }

    /** `onDrop`. Only the first accepted file counts; an empty drop does
        nothing. A file over the limit is refused with a message and no
        upload (a file of exactly the limit goes through). Otherwise the
        progress shows "uploading" at 0 while the combined upload runs
        (`outcome` is its result), then "completed" at 100 with the stored file's id,
        or "error" at 0 with the message, which is also reported. */
    method OnDrop(acceptedFiles: seq<FileInfo>, maxSize: nat,
                  outcome: Result<UploadAndCreateResult, Thrown>,
                  hasOnUploadComplete: bool, hasOnUploadError: bool)
      returns (effects: DropEffects)
      requires Valid()
      modifies this
      ensures Valid()
      ensures acceptedFiles == [] ==>
        uploadProgress == old(uploadProgress) && effects == DropEffects(None, None, None)
      ensures acceptedFiles != [] && acceptedFiles[0].size > maxSize ==>
        uploadProgress == old(uploadProgress) && effects.during == None && effects.completed == None &&
        effects.reported == (if hasOnUploadError then Some(SizeLimitMessage(maxSize)) else None)
      ensures acceptedFiles != [] && acceptedFiles[0].size <= maxSize ==>
        effects.during == Some(UploadProgress("", acceptedFiles[0].name, 0, Uploading, None))
      ensures acceptedFiles != [] && acceptedFiles[0].size <= maxSize && outcome.Ok? ==>
        uploadProgress == Some(UploadProgress(outcome.value.fileId, acceptedFiles[0].name, 100, Completed, None)) &&
        effects.reported == None &&
        effects.completed == (if hasOnUploadComplete then Some((outcome.value.fileId, CreatedSwingId(outcome.value.swing))) else None)
      ensures acceptedFiles != [] && acceptedFiles[0].size <= maxSize && outcome.Err? ==>
        var m := UploadErrorMessage(outcome.error);
        uploadProgress == Some(UploadProgress("", acceptedFiles[0].name, 0, UploadError, Some(m))) &&
        effects.completed == None &&
        effects.reported == (if hasOnUploadError then Some(m) else None)
    {
      effects := DropEffects(None, None, None);
      if acceptedFiles == [] {
        return;
      }
      var file := acceptedFiles[0];
      if file.size > maxSize {
        if hasOnUploadError {
          effects := effects.(reported := Some(SizeLimitMessage(maxSize)));
        }
        return;
      }
      uploadProgress := Some(UploadProgress("", file.name, 0, Uploading, None));
      effects := effects.(during := uploadProgress);
      match outcome
      case Ok(result) =>
        uploadProgress := Some(UploadProgress(result.fileId, file.name, 100, Completed, None));
        var swingId := CreatedSwingId(result.swing);
        if hasOnUploadComplete {
          effects := effects.(completed := Some((result.fileId, swingId)));
        }
      case Err(error) =>
        var errorMessage := UploadErrorMessage(error);
        uploadProgress := Some(UploadProgress("", file.name, 0, UploadError, Some(errorMessage)));
        if hasOnUploadError {
          effects := effects.(reported := Some(errorMessage));
        }
    }

    /** The close button of the progress card. */
    method Dismiss()
      modifies this
      ensures Valid() && uploadProgress == None
    {
      uploadProgress := None;
    }
  }

  /** The gate sits exactly at the limit: a file of `maxSize` bytes is
      uploaded, one byte more is refused and leaves the first file's record
      on screen. */
  method GateAtLimit(v: VideoUploadView, name: string, mimeType: string, maxSize: nat,
                     outcome: Result<UploadAndCreateResult, Thrown>)
    requires v.Valid()
    modifies v
    ensures v.Valid()
    ensures v.uploadProgress.Some? && v.uploadProgress.value.fileName == name
    ensures v.uploadProgress.value.status == (if outcome.Ok? then Completed else UploadError)
  {
    var atLimit := v.OnDrop([FileInfo(name, maxSize, mimeType)], maxSize, outcome, true, true);
    assert atLimit.during.Some?;
    var over := v.OnDrop([FileInfo(name, maxSize + 1, mimeType)], maxSize, outcome, true, true);
    assert over.during == None && over.reported == Some(SizeLimitMessage(maxSize));
  }
}
