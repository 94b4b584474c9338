# SwingFrames client, modelled in Dafny

SwingFrames is a web client for golf-swing videos. Users upload swings to
storage through presigned POST forms, browse their swing library, pick two
swings to compare side by side, and look at pose-analysis snapshots of a
swing. Swings, comparisons and analyses live behind a remote API. This
project models the client's own logic with the network replaced by inputs:

- the two Redux stores: the swing library with its ordered selection, and
  the overlay settings;
- the library and compare pages: the two-swing selection cap, the
  disabled-card rule, classifying load errors, and automatic analysis
  requests;
- the data hooks: cache keys, swing-creation defaults, choosing the upload
  fields, the upload-then-create ordering, and the analysis query with its
  fallback and polling rule;
- the API gateway: endpoint paths, request URL and headers, mapping every
  failure to an `ApiError`, and the storage upload with its policy-field
  check and multipart order (RFC 7578);
- the components: pose comparison navigation, the analysis status line,
  the pose skeleton tables, drawing and zoom, the video player's time
  display and handlers, the upload drop zone, the swing form action, the
  swing card, the snapshot grid and the demo widgets.

There is one module per source file. `Common` holds the JavaScript
semantics the modules share: `Option`/`Result`, truthiness, `||`,
substring search, and decimal rendering and parsing. `Types` holds the
records of `src/types/index.ts`.

Modelling style:

- State that the source updates in place is a class. This covers the
  reducers, and each component's `useState` variables. Its methods state
  the whole new state.
- Pure decisions are functions, and lemmas relate them.
- Loops in the source are `while` loops, proved against a recursive
  specification function. These are the multipart form building, the
  skeleton drawing, the auto-analyze loop and the action queue.
- What `fetch`, storage or a mutation returned is a parameter.

## Model

| member | source | states |
|---|---|---|
| Types.ResolvedVideoUrlSpec | src/components/swing/SwingCard.tsx:39-40 | the video location is the first truthy of `videoUrl`, `video_url`, `file_url`, and a swing without any is not playable |
| SwingsSlice.FindIndex | src/features/swings/swingsSlice.ts:33-35 | the result is the first position holding the id, or -1 exactly when no swing has it |
| SwingsSlice.WithoutIdMembers | src/features/swings/swingsSlice.ts:44-46 | filtering an id out keeps exactly the other ids |
| SwingsSlice.WithoutIdAppend | src/features/swings/swingsSlice.ts:44-46 | filtering works piecewise, so the remaining ids keep their relative order |
| SwingsSlice.WithoutIdAbsent | src/features/swings/swingsSlice.ts:53-57 | deselecting an id that is not selected changes nothing |
| SwingsSlice.WithoutIdShorter | src/features/swings/swingsSlice.ts:53-57 | deselecting never grows the selection |
| SwingsSlice.WithoutIdNoDup | src/features/swings/swingsSlice.ts:53-57 | deselecting keeps the selection free of duplicates |
| SwingsSlice.WithoutSwingMembers | src/features/swings/swingsSlice.ts:41-43 | after removal no library swing has the id, and every other swing is kept |
| SwingsSlice.WithoutSwingAppend | src/features/swings/swingsSlice.ts:41-43 | removal works piecewise, so the remaining swings keep their order |
| SwingsSlice.WithSelectedSpec | src/features/swings/swingsSlice.ts:48-52 | selecting never creates a duplicate; a selected id leaves the selection unchanged; a new id is appended at the end |
| SwingsSlice.UpdatedSpec | src/features/swings/swingsSlice.ts:32-39 | the first swing with the same id is replaced, the length is kept, and nothing changes when no id matches |
| SwingsSlice.SwingsStore.constructor | src/features/swings/swingsSlice.ts:12-18 | the initial state: empty lists, no comparison, not loading, no error |
| SwingsSlice.SwingsStore.SetLibrary | src/features/swings/swingsSlice.ts:24-28 | replaces the library, sets loading to false and clears the error |
| SwingsSlice.SwingsStore.AddSwing | src/features/swings/swingsSlice.ts:29-31 | the new swing is at index 0 and the library grows by one |
| SwingsSlice.SwingsStore.UpdateSwing | src/features/swings/swingsSlice.ts:32-39 | the library becomes the updated one, and the other fields are unchanged |
| SwingsSlice.SwingsStore.RemoveSwing | src/features/swings/swingsSlice.ts:40-47 | removes the swing from the library and its id from the selection |
| SwingsSlice.SwingsStore.SelectSwing | src/features/swings/swingsSlice.ts:48-52 | appends the id unless it is already selected, keeping the no-duplicate invariant |
| SwingsSlice.SwingsStore.DeselectSwing | src/features/swings/swingsSlice.ts:53-57 | removes the id from the selection and leaves the library untouched |
| SwingsSlice.SwingsStore.ClearSelection | src/features/swings/swingsSlice.ts:58-60 | empties the selection and changes nothing else |
| SwingsSlice.SwingsStore.SetCurrentComparison | src/features/swings/swingsSlice.ts:61-63 | sets only the current comparison |
| SwingsSlice.SwingsStore.SetLoading | src/features/swings/swingsSlice.ts:64-66 | sets only the loading flag |
| SwingsSlice.SwingsStore.SetError | src/features/swings/swingsSlice.ts:67-70 | records the error and always sets loading to false |
| SwingsSlice.RemoveThenReselect | src/features/swings/swingsSlice.ts:40-52 | after removal the id is in neither list and the other selected ids survive; selecting it again puts it last |
| OverlaySlice.Clamp01 | src/features/overlay/overlaySlice.ts:34-36 | the stored opacity lies in [0, 1], equals the input when that is in range, and is the nearest bound otherwise |
| OverlaySlice.MergeSpec | src/features/overlay/overlaySlice.ts:28-33 | the merge overwrites exactly the supplied fields; an empty update is the identity; merging is idempotent; two updates compose |
| OverlaySlice.MergeDoesNotClamp | src/features/overlay/overlaySlice.ts:28-33 | `updateSettings` stores an opacity above 1 unclamped |
| OverlaySlice.OverlayStore.constructor | src/features/overlay/overlaySlice.ts:10-19 | opacity 0.5, sync and timeline on, highlighting off, overlay mode off, sync enabled |
| OverlaySlice.OverlayStore.SetOverlayMode | src/features/overlay/overlaySlice.ts:25-27 | changes only the overlay mode |
| OverlaySlice.OverlayStore.UpdateSettings | src/features/overlay/overlaySlice.ts:28-33 | the settings become the merge, and the mode and sync flag are unchanged |
| OverlaySlice.OverlayStore.SetOpacity | src/features/overlay/overlaySlice.ts:34-36 | only the opacity changes, to the clamped value |
| OverlaySlice.OverlayStore.ToggleSyncPlayback | src/features/overlay/overlaySlice.ts:37-40 | flips the sync setting, after which the sync flag equals it |
| OverlaySlice.OverlayStore.ToggleTimeline | src/features/overlay/overlaySlice.ts:41-43 | flips only the timeline setting |
| OverlaySlice.OverlayStore.ToggleHighlightDifferences | src/features/overlay/overlaySlice.ts:44-47 | flips only the highlighting setting |
| OverlaySlice.OverlayStore.ResetSettings | src/features/overlay/overlaySlice.ts:48-50 | restores the default settings and leaves the mode and the sync flag unchanged |
| OverlaySlice.TogglesTwice | src/features/overlay/overlaySlice.ts:37-47 | each toggle applied twice restores the settings |
| Api.LibraryPathDefaults | src/lib/api.ts:15-19 | `getLibrary()` asks for `/swings?page=1&limit=20`, and explicit values appear verbatim |
| Api.SwingRoutesUnambiguous | src/lib/api.ts:21-180 | when ids contain no slash, equal routes of swing sub-resources come from the same call |
| Api.SlashInIdCollides | src/lib/api.ts:21-166 | the swing with id "7/snapshots" and the snapshots of swing "7" share a route |
| Api.BaseUrl | src/lib/api.ts:9 | the base is the configured URL when it is non-empty, else `http://localhost:8000` |
| Api.RequestUrl | src/lib/api.ts:216 | the URL starts with the base, and the endpoint can be read back from the rest |
| Api.RequestUrlInjective | src/lib/api.ts:216 | under one configuration, distinct endpoints are requested at distinct URLs |
| Api.SwingRequestsUnambiguous | src/lib/api.ts:21-216 | with slash-free ids, two swing sub-resource requests to the same URL with the same method are the same call |
| Api.SentHeaders | src/lib/api.ts:227-234 | corrected merge: caller headers win, and the defaults survive where the caller is silent |
| Api.BearerOnlyWithToken | src/lib/api.ts:227-234 | with no caller headers: JSON content type, and an Authorization header of "Bearer token" exactly when the token is non-empty (RFC 6750 section 2.1) |
| Api.CallerHeadersDropCredential | src/lib/api.ts:227-234 | as written, any caller header removes the bearer credential |
| Api.CatchToApiErrorSpec | src/lib/api.ts:259-281 | every failure leaves as an ApiError; an ApiError passes unchanged; everything else gets status 0; "Failed to fetch" gets the network message |
| Api.RequestOutcomeSpec | src/lib/api.ts:236-281 | a non-2xx answer keeps its status and names the status and the body; network and parse failures have status 0; a 2xx JSON body is the result |
| Api.HttpErrorMessageNames | src/lib/api.ts:250-253 | the message thrown for a non-2xx answer contains the status number and the body text |
| Api.MissingAmongMembers | src/lib/api.ts:65-66 | a name is reported missing exactly when it is required and its value is absent or empty |
| Api.MissingFieldsInOrder | src/lib/api.ts:64-74 | missing policy fields are listed in the order key, AWSAccessKeyId, policy, signature |
| Api.BuildUploadForm | src/lib/api.ts:76-85 | the loop builds `UploadForm`: every field in entry order, then the file as the last part, named "file" |
| Api.StorageResult | src/lib/api.ts:90-110 | a rejected fetch propagates; a 2xx answer succeeds; any other status becomes an ApiError with that status and "Upload failed: " plus the status text |
| Api.UploadVideo | src/lib/api.ts:51-111 | a missing policy field rejects with the list of missing fields before anything is sent; otherwise exactly `UploadForm` is posted to the presigned URL, and `StorageResult` decides the outcome |
| SwingHooks.KeysSpec | src/hooks/useSwings.ts:6-19 | every key starts with "swings"; library page keys extend the library key; pose-analysis keys are `["swings","pose-analysis",id]`, injective, and never a swing key |
| SwingHooks.SwingNamedLibraryShadowsLibraryKey | src/hooks/useSwings.ts:6-11 | the key of a swing with id "library" equals the library key |
| SwingHooks.CreateSwingRequest | src/hooks/useSwings.ts:66-72 | a missing or empty tag, title or description takes its default, and the file URL is passed through |
| SwingHooks.PlanUpload | src/hooks/useSwings.ts:152-223 | no answer, a non-object answer, a missing upload URL, or neither upload fields nor a content type: each is its own error, checked in that order |
| SwingHooks.PlanUploadFields | src/hooks/useSwings.ts:199-223 | upload fields are used verbatim; else Content-Type, plus Content-Disposition only when present |
| SwingHooks.FallbackFieldsAlwaysRefused | src/hooks/useSwings.ts:205-218 | the fallback fields lack all four policy fields, so the storage check always refuses them |
| SwingHooks.UploadVideoMutation | src/hooks/useSwings.ts:134-233 | a failed presigned request or plan sends nothing and fails with that error; missing policy fields send nothing and fail with the missing-fields error; otherwise the plan's fields and the file are posted to the plan's URL, a storage failure propagates, and success yields the stored file's URL, or else the upload URL, as both file id and URL |
| SwingHooks.OldFormatNeverUploads | src/hooks/useSwings.ts:205-226 | an answer without upload fields never sends anything |
| SwingHooks.UploadAndCreate | src/hooks/useSwings.ts:247-291 | after a successful upload the calls are presign, the storage POST, then creation from the stored location with the caller's tag, title and description, and the result mirrors creation; after a failed upload there is no creation call and the upload's error propagates unchanged |
| SwingHooks.FetchPoseAnalysis | src/hooks/useSwings.ts:314-400 | the presigned-URL answer is used, unwrapped, when it succeeds; otherwise the metadata endpoint decides the result |
| SwingHooks.RefetchInterval | src/hooks/useSwings.ts:403-407 | polls every 3000 ms exactly while the cached status is "processing" |
| SwingHooks.PollingFollowsEnvelope | src/hooks/useSwings.ts:341-407 | an envelope whose inner status is "processing" keeps the query polling |
| LibraryPage.ToggleCappedSpec | src/app/library/page.tsx:81-92 | a click deselects a selected id, appends an unselected one while fewer than two are selected, and otherwise does nothing; the cap holds |
| LibraryPage.ClicksKeepCap | src/app/library/page.tsx:81-92 | any sequence of clicks keeps at most two selected, none twice |
| LibraryPage.TwoPicksEnableCompare | src/app/library/page.tsx:81-98 | two distinct picks enable the comparison, and a third pick changes nothing |
| LibraryPage.DisabledIffClickIsNoop | src/app/library/page.tsx:228-231 | a card is disabled exactly when clicking it would change nothing |
| LibraryPage.HandleSwingSelect | src/app/library/page.tsx:81-92 | the store's selection becomes the capped toggle; nothing else changes |
| LibraryPage.UnwrapLibrary | src/app/library/page.tsx:47 | an array is used as it is, else its `data` array, else the empty list |
| LibraryPage.UnreachableServerShowsEmptyLibrary | src/app/library/page.tsx:53-61 | a fetch rejected with "Failed to fetch" shows an empty library and no error |
| LibraryPage.ServerErrorShowsBanner | src/app/library/page.tsx:53-65 | a failed answer whose message names no network phrase shows "Failed to load swings" |
| LibraryPage.LoadLibrary | src/app/library/page.tsx:35-73 | nothing happens unless signed in; otherwise loading ends with the new library and no error, or with the banner and the library kept |
| ComparePage.CompareView.constructor | src/app/compare/page.tsx:33 | the page starts with no selected ids |
| ComparePage.CompareView.SyncFromStore | src/app/compare/page.tsx:48-53 | a non-empty store selection replaces the local one with its first two ids; an empty one changes nothing |
| ComparePage.CompareView.HandleSwingSelect | src/app/compare/page.tsx:98-104 | the local selection becomes the capped toggle |
| ComparePage.SeedWithinCap | src/app/compare/page.tsx:48-53 | the seeded selection is within the cap |
| ComparePage.SelectedSwingsMembers | src/app/compare/page.tsx:37-39 | the shown swings are exactly the library swings whose id is selected |
| ComparePage.SelectedSwingsAppend | src/app/compare/page.tsx:37-39 | the shown swings follow library order |
| ComparePage.SelectionOrderIgnored | src/app/compare/page.tsx:37-39 | selecting the second swing first still shows the first one first |
| ComparePage.AnalysisQueriesFollowSelection | src/app/compare/page.tsx:42-43 | the k-th analysis query is enabled exactly when a non-empty k-th id is selected |
| ComparePage.AutoAnalyze | src/app/compare/page.tsx:56-96 | the loop requests generation for the ids that satisfy the predicate, in selection order |
| ComparePage.AutoRequestsMembers | src/app/compare/page.tsx:58-68 | an id is requested exactly when it is selected, non-empty, its status is "not_generated" and nothing is pending |
| ComparePage.AutoRequestsForPair | src/app/compare/page.tsx:58-68 | with two distinct ids, each is requested exactly when its own query says "not_generated" |
| ComparePage.PanelsExclusive | src/app/compare/page.tsx:162-246 | exactly one of the selection panel and the player is shown |
| ComparePage.PoseComparisonNeedsBoth | src/app/compare/page.tsx:379-381 | the pose comparison shows only with two shown swings and both analyses available |
| ComparePage.SelectedSwingsIndices | src/app/compare/page.tsx:37-39 | the shown list is never longer than the library |
| ComparePage.SelectedSwingsPositions | src/app/compare/page.tsx:37-39 | two shown swings come from two distinct library positions with selected ids |
| PoseComparison.EventIndex | src/components/pose/PoseComparison.tsx:190-192 | the index is that of the event in the list, or -1 |
| PoseComparison.NavigationCycle | src/components/pose/PoseComparison.tsx:189-222 | previous and next undo each other; three steps return to the start; they wrap at the ends and otherwise move one step |
| PoseComparison.PositionLabel | src/components/pose/PoseComparison.tsx:208-209 | the label lies in 1..3 and names the current event's position |
| PoseComparison.ErrorKeyInjective | src/components/pose/PoseComparison.tsx:26-28 | images of different swings or events never share an error key |
| PoseComparison.PoseComparisonView.constructor | src/components/pose/PoseComparison.tsx:19-24 | the view opens at the alignment event, setup by default, with no failures |
| PoseComparison.PoseComparisonView.HandleImageError | src/components/pose/PoseComparison.tsx:26-28 | sets only that image's key |
| PoseComparison.PoseComparisonView.HandleEventChange | src/components/pose/PoseComparison.tsx:30-32 | moves to the chosen event and keeps the failures |
| PoseComparison.PoseComparisonView.Previous | src/components/pose/PoseComparison.tsx:189-195 | moves one event back, cyclically |
| PoseComparison.PoseComparisonView.Next | src/components/pose/PoseComparison.tsx:216-222 | moves one event on, cyclically |
| PoseComparison.FailuresPersist | src/components/pose/PoseComparison.tsx:26-40 | failures recorded around navigation steps survive them; the general claim that no handler clears a key rests on the handlers' own ensures |
| SwingAnalysis.StatusLineAgrees | src/components/pose/SwingAnalysis.tsx:103-169 | icon, text and colour all follow one shared priority |
| SwingAnalysis.StatusPriority | src/components/pose/SwingAnalysis.tsx:123-145 | the order is loading or generating, then failure, then available, then processing, then "Ready to analyze"; an empty error message is no failure |
| SwingAnalysis.GenerateButtonMeansReady | src/components/pose/SwingAnalysis.tsx:205-206 | the Generate button never shows beside a finished or processing analysis |
| SwingAnalysis.CompletionReport | src/components/pose/SwingAnalysis.tsx:60-64 | `onAnalysisComplete` receives the analysis exactly when it is available and the callback exists |
| SwingAnalysis.LoadErrorReport | src/components/pose/SwingAnalysis.tsx:67-71 | `onError` receives the query error's message, or "Failed to load pose analysis" when that is empty |
| SwingAnalysis.FailedQueryReportedAndShown | src/components/pose/SwingAnalysis.tsx:67-145 | a failed query is reported to the caller and shown as "Analysis failed" |
| SwingAnalysis.SwingAnalysisView.constructor | src/components/pose/SwingAnalysis.tsx:31-32 | not generating, no error |
| SwingAnalysis.SwingAnalysisView.HandleGenerateSnapshots | src/components/pose/SwingAnalysis.tsx:73-96 | generating with the error cleared during the call; afterwards not generating, and a failure recorded and reported with the Error's message or the default |
| SwingAnalysis.SwingAnalysisView.HandleRetry | src/components/pose/SwingAnalysis.tsx:98-101 | clears the generation error |
| SwingAnalysis.FailThenRetry | src/components/pose/SwingAnalysis.tsx:73-101 | a failure shows until a retry, which restores the line the query dictates |
| PoseVisualization.MaxIndex | src/components/pose/PoseVisualization.tsx:17-61 | the largest index in a connection table, or -1 for an empty table |
| PoseVisualization.ConnectionsNameLandmarks | src/components/pose/PoseVisualization.tsx:17-97 | 33 names and 39 connections, every index below 33 and the largest exactly 32 |
| PoseVisualization.ArmSegmentsListedTwice | src/components/pose/PoseVisualization.tsx:17-61 | four arm segments appear twice in the table |
| PoseVisualization.DrawnConnectionsMembers | src/components/pose/PoseVisualization.tsx:133-151 | a segment is drawn exactly when it is in the table and both ends exist and are visible |
| PoseVisualization.LowerChar | src/components/pose/PoseVisualization.tsx:163 | upper-case ASCII letters map to lower case, other characters are unchanged |
| PoseVisualization.Lower | src/components/pose/PoseVisualization.tsx:163 | lowering works character by character and keeps the length |
| PoseVisualization.LowerIdempotent | src/components/pose/PoseVisualization.tsx:163 | lowering twice is lowering once |
| PoseVisualization.HighlightIgnoresCase | src/components/pose/PoseVisualization.tsx:161-163 | highlighting ignores the request's case, never applies past the named landmarks, and is off without a request |
| PoseVisualization.ShoulderHighlightsBoth | src/components/pose/PoseVisualization.tsx:161-163 | a request that lowers to "shoulder", in any case, highlights landmarks 11 and 12 |
| PoseVisualization.LowerShoulder | src/components/pose/PoseVisualization.tsx:163 | one example: the request "Shoulder" lowers to "shoulder" |
| PoseVisualization.DrawnDotsMembers | src/components/pose/PoseVisualization.tsx:155-176 | a dot is drawn for exactly the visible landmarks, highlighted exactly when the name matches |
| PoseVisualization.SegmentsEndInDots | src/components/pose/PoseVisualization.tsx:133-176 | every drawn segment ends in two drawn dots |
| PoseVisualization.DrawConnections | src/components/pose/PoseVisualization.tsx:133-151 | the loop draws the drawable segments in table order |
| PoseVisualization.DrawLandmarks | src/components/pose/PoseVisualization.tsx:155-176 | the loop draws the dots in index order |
| PoseVisualization.DrawSkeleton | src/components/pose/PoseVisualization.tsx:113-177 | nothing without landmarks or with the skeleton hidden; otherwise segments, then dots when landmarks are shown |
| PoseVisualization.InfoRows | src/components/pose/PoseVisualization.tsx:307-316 | the panel lists the first eight landmarks at most, each with its label and visibility percentage |
| PoseVisualization.InfoRowsNamed | src/components/pose/PoseVisualization.tsx:310 | within the first eight, the `Point i` fallback never shows |
| PoseVisualization.ZoomStepSpec | src/components/pose/PoseVisualization.tsx:179-189 | zoom in and out move one quarter, or stop at 3 and 0.5; reset gives 1; a valid zoom stays valid |
| PoseVisualization.ZoomStaysInRange | src/components/pose/PoseVisualization.tsx:106-189 | any click sequence keeps the zoom in [0.5, 3] on quarter steps |
| PoseVisualization.ZoomButtonsDisabledIffNoop | src/components/pose/PoseVisualization.tsx:238-251 | a zoom button is disabled exactly when clicking it would change nothing |
| PoseVisualization.PoseVisualizationView.constructor | src/components/pose/PoseVisualization.tsx:105-108 | zoom 1, skeleton shown, not fullscreen, no image error |
| PoseVisualization.PoseVisualizationView.HandleZoomIn | src/components/pose/PoseVisualization.tsx:179-181 | zoom becomes `min(z + 0.25, 3)`, and the rest is unchanged |
| PoseVisualization.PoseVisualizationView.HandleZoomOut | src/components/pose/PoseVisualization.tsx:183-185 | zoom becomes `max(z - 0.25, 0.5)`, and the rest is unchanged |
| PoseVisualization.PoseVisualizationView.HandleReset | src/components/pose/PoseVisualization.tsx:187-189 | zoom becomes 1 |
| PoseVisualization.PoseVisualizationView.ToggleFullscreen | src/components/pose/PoseVisualization.tsx:191-193 | flips only the fullscreen flag |
| PoseVisualization.PoseVisualizationView.ToggleSkeleton | src/components/pose/PoseVisualization.tsx:223 | flips only the skeleton flag |
| PoseVisualization.PoseVisualizationView.OnImageError | src/components/pose/PoseVisualization.tsx:276 | sets the image-error flag, and the rest is unchanged |
| VideoPlayer.PadStart2 | src/components/video/ModernVideoPlayer.tsx:107 | pads with leading zeros to two characters |
| VideoPlayer.SecondsField | src/components/video/ModernVideoPlayer.tsx:106-107 | two digits that parse back to the seconds |
| VideoPlayer.FormatSecondsParts | src/components/video/ModernVideoPlayer.tsx:104-108 | "m:ss" parses back to `t div 60` and `t mod 60` |
| VideoPlayer.FormatSecondsInjective | src/components/video/ModernVideoPlayer.tsx:104-108 | different whole seconds display differently |
| VideoPlayer.FormatTime | src/components/video/ModernVideoPlayer.tsx:104-108 | the display of a time is that of its whole seconds, with minutes `floor(t / 60)` |
| VideoPlayer.FormatTimeExamples | src/components/video/ModernVideoPlayer.tsx:104-108 | 0 shows "0:00", 59 shows "0:59", 61.9 shows "1:01", 3600 shows "60:00" |
| VideoPlayer.ScrubberMax | src/components/video/ModernVideoPlayer.tsx:198 | the scrubber range is the duration when non-zero, else 100 |
| VideoPlayer.VideoPlayerView.constructor | src/components/video/ModernVideoPlayer.tsx:36-39 | paused, muted, at time 0 with duration 0 |
| VideoPlayer.VideoPlayerView.HandlePlayPause | src/components/video/ModernVideoPlayer.tsx:43-56 | pauses and notifies when playing, else plays and notifies, then flips the flag; nothing without an element |
| VideoPlayer.VideoPlayerView.OnPlayEvent | src/components/video/ModernVideoPlayer.tsx:124 | the element's play event sets the flag |
| VideoPlayer.VideoPlayerView.OnPauseEvent | src/components/video/ModernVideoPlayer.tsx:125 | the element's pause event clears the flag |
| VideoPlayer.VideoPlayerView.HandleTimeUpdate | src/components/video/ModernVideoPlayer.tsx:58-64 | mirrors and reports the element's time |
| VideoPlayer.VideoPlayerView.HandleLoadedMetadata | src/components/video/ModernVideoPlayer.tsx:66-72 | mirrors and reports the element's duration |
| VideoPlayer.VideoPlayerView.HandleSeek | src/components/video/ModernVideoPlayer.tsx:74-80 | the element and the state both move to the slider value |
| VideoPlayer.VideoPlayerView.HandleMuteToggle | src/components/video/ModernVideoPlayer.tsx:82-87 | flips the mute state and keeps the element in step |
| VideoPlayer.VideoPlayerView.HandleReset | src/components/video/ModernVideoPlayer.tsx:89-94 | the element and the state both return to time 0 |
| VideoPlayer.TogglesUndo | src/components/video/ModernVideoPlayer.tsx:82-94 | two mute toggles restore the mute state, and reset shows "0:00" |
| VideoUpload.RoundToMiB | src/components/upload/VideoUpload.tsx:44 | the rounded size is the nearest whole number of MiB, halves up |
| VideoUpload.DefaultLimitMessage | src/components/upload/VideoUpload.tsx:25-44 | the default limit is reported as "100MB" |
| VideoUpload.VideoUploadView.constructor | src/components/upload/VideoUpload.tsx:31-33 | no upload is shown |
| VideoUpload.CreatedSwingId | src/components/upload/VideoUpload.tsx:75 | the id inside the created swing's `data` envelope, and none when the answer has no such record |
| VideoUpload.VideoUploadView.OnDrop | src/components/upload/VideoUpload.tsx:36-88 | an empty drop does nothing; an oversized file is refused without upload; otherwise uploading at 0, then completed at 100 with `onUploadComplete` given the file id and the created swing's id, or error at 0 with the message |
| VideoUpload.VideoUploadView.Dismiss | src/components/upload/VideoUpload.tsx:212 | the progress card goes away |
| VideoUpload.GateAtLimit | src/components/upload/VideoUpload.tsx:42-47 | a file of exactly the limit is uploaded, and one byte more is refused |
| FormAction.TrimStartSpec | src/components/forms/FormAction.tsx:33 | trimStart drops exactly the leading white space |
| FormAction.TrimEndSpec | src/components/forms/FormAction.tsx:33 | trimEnd drops exactly the trailing white space |
| FormAction.TrimEmptyIff | src/components/forms/FormAction.tsx:33 | a string trims to nothing exactly when it is all white space |
| FormAction.TrimIdempotent | src/components/forms/FormAction.tsx:33 | trimming twice is trimming once |
| FormAction.FieldErrorsSpec | src/components/forms/FormAction.tsx:31-43 | the errors hold exactly the failing fields, each with its single message; the description is never checked |
| FormAction.ValidateSpec | src/components/forms/FormAction.tsx:30-56 | saved exactly when the title has a non-space character and outcome and club are set; otherwise the fix-errors message and the errors |
| FormAction.SubmitSwingForm | src/components/forms/FormAction.tsx:23-57 | the record built one check at a time equals the declarative error record, so the action's result is the validation of the submitted data |
| FormAction.FormActionView.constructor | src/components/forms/FormAction.tsx:60-70 | not saved, no message, no submissions |
| FormAction.FormActionView.HandleSubmit | src/components/forms/FormAction.tsx:72-75 | the optimistic counter grows by one and the data is queued |
| FormAction.FormActionView.Settle | src/components/forms/FormAction.tsx:60-75 | queued actions run in order; the state is the last one's result, and the counter returns to 0 |
| SwingCard.VideoErrorNeverShown | src/components/swing/SwingCard.tsx:96-175 | as written, the "Video unavailable" panel never shows |
| SwingCard.PreviewFor | src/components/swing/SwingCard.tsx:96-175 | corrected precedence: a video error first, then video, thumbnail, placeholder |
| SwingCard.PreviewsAgreeWithoutError | src/components/swing/SwingCard.tsx:96-175 | without a video error both precedences agree |
| SwingCard.DisabledCheckboxIsHarmless | src/components/swing/SwingCard.tsx:185-188 | the checkbox reaches the handler even when disabled, but on the library page that click changes nothing |
| SwingCard.SwingCardView.constructor | src/components/swing/SwingCard.tsx:32-33 | no video error, not playing |
| SwingCard.SwingCardView.OnVideoError | src/components/swing/SwingCard.tsx:154-156 | sets `videoError` only; as written the card keeps showing the video, and the corrected `PreviewFor` shows the unavailable panel |
| SwingCard.SwingCardView.OnPlay | src/components/swing/SwingCard.tsx:111-150 | sets only the playing flag |
| SwingCard.SwingCardView.OnPauseOrEnded | src/components/swing/SwingCard.tsx:151-153 | clears only the playing flag |
| SwingCard.SwingCardView.HandleDelete | src/components/swing/SwingCard.tsx:46-59 | the delete request comes first; the store removal and then `onDelete` happen only after success; a failure alerts and leaves the store unchanged |
| SwingCard.DeleteRemovesEverywhere | src/components/swing/SwingCard.tsx:46-59 | after a successful delete the swing is in neither the library nor the selection |
| SnapshotGrid.GridEventsSpec | src/components/pose/SnapshotGrid.tsx:9-26 | the grid shows setup, top_backswing, impact, follow_through, in that order and once each |
| SnapshotGrid.Render | src/components/pose/SnapshotGrid.tsx:46-143 | loading wins over an error, which wins over the grid of four tiles |
| SnapshotGrid.TileSpec | src/components/pose/SnapshotGrid.tsx:123-176 | an image shows exactly when the URL is truthy and the key is unmarked; a marked key shows the failure |
| SnapshotGrid.TileClick | src/components/pose/SnapshotGrid.tsx:40-44 | a click forwards (key, url) exactly when the URL is truthy and a callback exists |
| SnapshotGrid.FailedTileStillClickable | src/components/pose/SnapshotGrid.tsx:137-139 | a tile whose image failed still forwards clicks |
| SnapshotGrid.SnapshotGridView.constructor | src/components/pose/SnapshotGrid.tsx:34 | no image has failed |
| SnapshotGrid.SnapshotGridView.HandleImageError | src/components/pose/SnapshotGrid.tsx:36-38 | marks only that event's key |
| SnapshotGrid.ImageErrorIsLocal | src/components/pose/SnapshotGrid.tsx:36-38 | a failure changes only its own tile |
| ModernFeatures.Reverse | src/components/ModernFeatures.tsx:78-81 | reversing keeps the length |
| ModernFeatures.ReverseAt | src/components/ModernFeatures.tsx:78-81 | character i of the result is character n-1-i of the input |
| ModernFeatures.ReverseInvolution | src/components/ModernFeatures.tsx:78-81 | reversing twice gives the input back |
| ModernFeatures.TransitionDemoView.constructor | src/components/ModernFeatures.tsx:13 | the list starts empty |
| ModernFeatures.TransitionDemoView.AddItem | src/components/ModernFeatures.tsx:16-21 | appends "Item n+1", where n is the current length |
| ModernFeatures.TransitionDemoView.ClearItems | src/components/ModernFeatures.tsx:23-27 | empties the list |
| ModernFeatures.AddMany | src/components/ModernFeatures.tsx:16-27 | after a clear, n additions show "Item 1" to "Item n" |
| ModernFeatures.NumberedLength | src/components/ModernFeatures.tsx:16-21 | n additions give n items |
| ModernFeatures.NumberedSpec | src/components/ModernFeatures.tsx:16-21 | item i is labelled i+1, so no label repeats |

## Left out

- Network, storage and timers. The model does not perform the actual `fetch` and storage POST. What they returned is a parameter: `FetchOutcome`, `StorageOutcome`, and the `Result` of a mutation. The react-query cache, its stale times, invalidations and refetch timers are not modelled. The keys and the interval rule are.
- Authentication plumbing. The token is an input. The module-level `swingsApi`, `poseAnalysisApi` and `comparisonsApi` objects of `src/lib/api.ts` are not modelled: the core uses `createAuthenticatedApi`.
- The `useSwing`, `useUpdateSwing`, `useDeleteSwing`, `useGeneratePoseAnalysis` and `useTestPoseAnalysis` hooks. They only wrap one gateway call and invalidate the cache.
- Concurrency. The auto-analyze loop's awaits, the pending flag changing mid-loop, and transitions (`startTransition`, `useDeferredValue`) are not modelled. Each handler runs to completion.
- Floating point. Times, zoom and opacity are exact reals. NaN and infinities are not modelled. `toFixed` in the visibility percentage and in `formatFileSize` is not modelled.
- Locale text. `toLocaleDateString` in the default swing title and in the card's date is an input or left out.
- Canvas drawing. Coordinates, colours, the canvas resizing in the image's `onLoad`, and the index labels are not modelled. Only which segments and dots are drawn is.
- Browser filtering before `onDrop`. The drop zone's own checks (accepted MIME types, its `maxSize`, one file) are not modelled. `OnDrop` takes the accepted files as given.
- `handleFullscreen` of the video player. It only calls the browser's fullscreen API.
- Framer-motion animation, hover state, the settings panel of the compare page, and all console logging.
- `VideoPlayer.FormatTime`: requires a non-negative time, as media times are. Negative inputs are not covered.
- `ModernFeatures.Reverse`: reverses characters. `split('')` splits UTF-16 code units, so the source swaps the two halves of a character outside the Basic Multilingual Plane; the model does not capture that.
- `PoseVisualization.LowerChar`: lowers ASCII letters only. Full Unicode case mapping of `toLowerCase` is not modelled.
- `FormAction.FormActionView.Settle`: `useOptimistic` is modelled as a queue of pending submissions whose counter falls back to 0 once the actions have finished. React's scheduling of the action queue is not modelled.
- `SwingHooks.CreateSwingRequest`: the title's date text is an input.
- Explicit `undefined` members in a partial overlay update are treated as absent, although a spread would copy them.
- Integer-like object keys would be enumerated first by `Object.entries`. The multipart form keeps the fields in the order given.
- Creation failure after a successful upload. The combined upload propagates the creation error as it is (`src/hooks/useSwings.ts:264-290`), and the model does the same. It does not report this as a separate condition.

## Findings

| source | as written | input that shows it | evidently intended | confidence | as-written member | corrected member |
|---|---|---|---|---|---|---|
| src/lib/api.ts:227-234 | `...requestOptions` follows the merged `headers`, and it still holds the caller's `headers`, so any caller header replaces the merged object | token "t0k" with caller headers `{X-Trace: 1}`: no Authorization and no Content-Type are sent | the caller's headers added on top of the defaults | not executed | Api.CallerHeadersDropCredential | Api.SentHeaders |
| src/components/swing/SwingCard.tsx:96-175 | the `videoError` branch sits after `isValidUrl`, but only the video element, which exists only for a valid URL, sets `videoError` | a swing whose `videoUrl` is "https://host/broken.mp4" and fails to load: the broken player stays, and "Video unavailable" never shows | a failed video replaced by the "Video unavailable" panel | not executed | SwingCard.VideoErrorNeverShown | SwingCard.PreviewFor |
