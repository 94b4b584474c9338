/** The records the client exchanges with its backend and keeps in its
    stores. Optional fields of the wire format are `Option`s; the several
    spellings of a video location (`videoUrl`, `video_url`, `file_url`)
    are kept apart because the client resolves them itself. */
module Types {
  import opened Common

  datatype TagType = Outcome | Club | Custom

  datatype SwingTag = SwingTag(id: string, kind: TagType, value: string, text: string)

  datatype Swing = Swing(
    id: string,
    title: Option<string>,
    description: Option<string>,
    videoUrl: Option<string>,
    video_url: Option<string>,
    file_url: Option<string>,
    thumbnailUrl: Option<string>,
    tags: seq<SwingTag>,
    createdAt: Option<string>,
    created_at: Option<string>)

  datatype OverlaySettings = OverlaySettings(
    opacity: real,
    syncPlayback: bool,
    showTimeline: bool,
    highlightDifferences: bool)

  datatype AlignmentType = Timestamp | Impact | BackswingTop | FollowThroughAlignment

  datatype ViewMode = SideBySide | Overlay

  datatype Comparison = Comparison(
    id: string,
    userId: string,
    swings: seq<string>,
    alignmentType: AlignmentType,
    viewMode: ViewMode,
    overlaySettings: OverlaySettings,
    createdAt: string)

  /** The four states a pose analysis reports. */
  datatype PoseStatus = Available | NotGenerated | Processing | Failed

  /** The four canonical swing events a snapshot is taken at. */
  datatype SwingEvent = Setup | TopBackswing | ImpactEvent | FollowThrough

  /** The key under which the backend and the components name an event. */
  function EventKey(e: SwingEvent): string {
    match e
    case Setup => "setup"
    case TopBackswing => "top_backswing"
    case ImpactEvent => "impact"
    case FollowThrough => "follow_through"
  }

  /** Image location per event; a missing or empty URL is `None`/`Some("")`. */
  datatype PoseSnapshot = PoseSnapshot(
    setup: Option<string>,
    top_backswing: Option<string>,
    impact: Option<string>,
    follow_through: Option<string>)

  /** `snapshots[eventKey]` */
  function SnapshotUrl(s: PoseSnapshot, e: SwingEvent): Option<string> {
    match e
    case Setup => s.setup
    case TopBackswing => s.top_backswing
    case ImpactEvent => s.impact
    case FollowThrough => s.follow_through
  }

  datatype PoseAnalysis = PoseAnalysis(
    swing_id: string,
    snapshots: Option<PoseSnapshot>,
    status: PoseStatus,
    error: Option<string>)

  datatype UploadStatus = Uploading | ProcessingUpload | Completed | UploadError

  datatype UploadProgress = UploadProgress(
    fileId: string,
    fileName: string,
    progress: nat,
    status: UploadStatus,
    error: Option<string>)

  /** A file picked by the user: its name, size in bytes and MIME type. */
  datatype FileInfo = FileInfo(name: string, size: nat, mimeType: string)

  datatype PresignedUrlResponse = PresignedUrlResponse(
    uploadUrl: string,
    fileUrl: string,
    uploadFields: Option<seq<(string, string)>>,
    contentType: Option<string>,
    contentDisposition: Option<string>)

  /** The video location of a swing: the first truthy one of `videoUrl`,
      `video_url`, `file_url` (`a || b || c`). */
  function ResolvedVideoUrl(s: Swing): Option<string> {
    OrElse(OrElse(s.videoUrl, s.video_url), s.file_url)
  }

  /** `videoUrl && videoUrl.startsWith('http')` */
  predicate IsPlayableUrl(u: Option<string>) {
    Truthy(u) && StartsWith(u.value, "http")
  }

  /** The alias rule picks the first spelling that is set, and the swing is
      playable exactly when that one starts with "http". */
  lemma ResolvedVideoUrlSpec(s: Swing)
    ensures Truthy(s.videoUrl) ==> ResolvedVideoUrl(s) == s.videoUrl
    ensures !Truthy(s.videoUrl) && Truthy(s.video_url) ==> ResolvedVideoUrl(s) == s.video_url
    ensures !Truthy(s.videoUrl) && !Truthy(s.video_url) ==> ResolvedVideoUrl(s) == s.file_url
    ensures !Truthy(s.videoUrl) && !Truthy(s.video_url) && !Truthy(s.file_url) ==> !IsPlayableUrl(ResolvedVideoUrl(s))
  {
  }
}
