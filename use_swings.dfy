/** The data hooks of src/hooks/useSwings.ts: the cache keys, the body of a
    swing-creation request, the upload mutation (presigned-URL answer
    checks, choice of the policy fields, upload, result), the combined
    upload-then-create mutation, and the pose-analysis query with its
    fallback endpoint and polling rule. What the gateway answers is an
    input of each operation. */
module SwingHooks {
  import opened Common
  import opened Types
  import opened Api

  // ---------------------------------------------------------------------
  // Query keys

  datatype KeyPart = KStr(s: string) | KNum(n: nat)

  type QueryKey = seq<KeyPart>

  /** `swingKeys.all` */
  const AllKey: QueryKey := [KStr("swings")]

  /** `swingKeys.library()` */
  function LibraryKey(): QueryKey {
    AllKey + [KStr("library")]
  }

  /** `swingKeys.swing(id)` */
  function SwingKey(id: string): QueryKey {
    AllKey + [KStr(id)]
  }

  /** `swingKeys.poseAnalysis(id)` */
  function PoseAnalysisKey(id: string): QueryKey {
    AllKey + [KStr("pose-analysis"), KStr(id)]
  }

  /** The key of one library page in `useSwingsLibrary`. */
  function LibraryPageKey(page: nat, limit: nat): QueryKey {
    LibraryKey() + [KNum(page), KNum(limit)]
  }

  /** Every key lives under "swings"; every library page key lies under the
      library key (so invalidating the library reaches all pages); pose
      analyses of different swings never share a key, and a swing's own key
      is never a pose-analysis key. */
  lemma KeysSpec(id: string, other: string, page: nat, limit: nat)
    ensures AllKey <= LibraryKey() && AllKey <= SwingKey(id) && AllKey <= PoseAnalysisKey(id)
    ensures AllKey <= LibraryPageKey(page, limit)
    ensures LibraryKey() <= LibraryPageKey(page, limit)
    ensures PoseAnalysisKey(id) == PoseAnalysisKey(other) ==> id == other
    ensures SwingKey(id) != PoseAnalysisKey(other)
    ensures PoseAnalysisKey(id) == [KStr("swings"), KStr("pose-analysis"), KStr(id)]
  {
    assert PoseAnalysisKey(id)[2] == KStr(id);
    assert PoseAnalysisKey(other)[2] == KStr(other);
  }

  /** A swing whose id is "library" has the library key itself as its key. */
  lemma SwingNamedLibraryShadowsLibraryKey()
    ensures SwingKey("library") == LibraryKey()
  {
  }

  // ---------------------------------------------------------------------
  // Creating a swing

  datatype CreateSwingBody = CreateSwingBody(
    file_url: string,
    tag: string,
    title: string,
    description: string)

  /** The title given when the caller supplies none; the date text is the
      browser's locale rendering of today, an input here. */
  function DefaultTitle(today: string): string {
    "Golf Swing - " + today
  }

  /** The body `useCreateSwing` posts: every missing or empty field takes its
      default. */
  function CreateSwingRequest(fileUrl: string, tag: Option<string>, title: Option<string>,
                              description: Option<string>, today: string): (b: CreateSwingBody)
    ensures b.file_url == fileUrl
    ensures b.tag == (if Truthy(tag) then tag.value else "practice_swing")
    ensures b.title == (if Truthy(title) then title.value else DefaultTitle(today))
    ensures b.description == (if Truthy(description) then description.value else "")
    ensures b.tag != "" && b.title != ""
  {
    CreateSwingBody(fileUrl,
      OrElse(tag, Some("practice_swing")).value,
      OrElse(title, Some(DefaultTitle(today))).value,
      OrElse(description, Some("")).value)
  }

  // ---------------------------------------------------------------------
  // Uploading a video

  /** The `uploadFields` member of the answer: absent or null, a value that
      is not an object (truthy or not), or an object given by its entries. */
  datatype FieldsValue = NoFields | NonObjectFields(truthy: bool) | FieldsObject(entries: seq<(string, string)>)

  /** The members of a JSON object the hooks and the drop zone read: those
      of a presigned-URL answer, and the `id` of a swing record. */
  datatype PresignedFields = PresignedFields(
    id: Option<string>,
    uploadUrl: Option<string>,
    fileUrl: Option<string>,
    uploadFields: FieldsValue,
    contentType: Option<string>,
    contentDisposition: Option<string>)

  /** A JSON value as the hook sees it: null/undefined, a primitive (string,
      number, boolean) with its truthiness, or an object with the members
      above and a `data` member of its own. */
  datatype Payload =
    | Nullish
    | Primitive(truthy: bool)
    | Record(fields: PresignedFields, data: Payload)

  predicate TruthyPayload(p: Payload) {
    p.Record? || (p.Primitive? && p.truthy)
  }

  /** `presignedResponse.data || presignedResponse` (a primitive has no
      `data` member). */
  function ResponseData(p: Payload): Payload {
    if p.Record? && TruthyPayload(p.data) then p.data else p
  }

  const NoResponseMessage := "No response from presigned URL endpoint"
  const InvalidResponseMessage := "Invalid response data from presigned URL endpoint"
  const MissingUploadUrlMessage := "Missing uploadUrl in presigned URL response"
  const MissingFieldsMessage :=
    "Missing or invalid fields in presigned URL response. Expected either \"uploadFields\" object or \"contentType\" parameter."

  /** Where the file goes, with which policy fields, and the location of the
      stored file when the backend named one. */
  datatype UploadPlan = UploadPlan(uploadUrl: string, fileUrl: Option<string>, fields: seq<(string, string)>)

  /** The fields used when the answer has no `uploadFields` object. */
  function FallbackFields(contentType: string, contentDisposition: Option<string>): seq<(string, string)> {
    [("Content-Type", contentType)] +
      (if Truthy(contentDisposition) then [("Content-Disposition", contentDisposition.value)] else [])
  }

  /** The checks of the presigned-URL answer and the choice of fields, in
      the order the hook performs them. */
  function PlanUpload(p: Payload): (r: Result<UploadPlan, Thrown>)
    ensures !TruthyPayload(p) ==> r == Err(OtherError(NoResponseMessage))
    ensures TruthyPayload(p) && !ResponseData(p).Record? ==> r == Err(OtherError(InvalidResponseMessage))
    ensures r.Ok? ==> ResponseData(p).Record? && Truthy(ResponseData(p).fields.uploadUrl)
    ensures r.Ok? ==> r.value.uploadUrl == ResponseData(p).fields.uploadUrl.value
    ensures r.Ok? ==> r.value.fileUrl == ResponseData(p).fields.fileUrl
  {
    if !TruthyPayload(p) then Err(OtherError(NoResponseMessage))
    else
      var d := ResponseData(p);
      if !d.Record? then Err(OtherError(InvalidResponseMessage))
      else
        var f := d.fields;
        if !Truthy(f.uploadUrl) then Err(OtherError(MissingUploadUrlMessage))
        else if f.uploadFields.FieldsObject? then Ok(UploadPlan(f.uploadUrl.value, f.fileUrl, f.uploadFields.entries))
        else if Truthy(f.contentType) then
          Ok(UploadPlan(f.uploadUrl.value, f.fileUrl, FallbackFields(f.contentType.value, f.contentDisposition)))
        else Err(OtherError(MissingFieldsMessage))
  }

  /** The choice of fields: an `uploadFields` object is used as it is; else
      a content type gives Content-Type and, when present,
      Content-Disposition; else the answer is refused. A missing upload URL
      is refused before any of this. */
  lemma PlanUploadFields(p: Payload)
    requires TruthyPayload(p) && ResponseData(p).Record?
    ensures var f := ResponseData(p).fields;
      !Truthy(f.uploadUrl) ==> PlanUpload(p) == Err(OtherError(MissingUploadUrlMessage))
    ensures var f := ResponseData(p).fields;
      Truthy(f.uploadUrl) && f.uploadFields.FieldsObject? ==> PlanUpload(p).Ok? && PlanUpload(p).value.fields == f.uploadFields.entries
    ensures var f := ResponseData(p).fields;
      Truthy(f.uploadUrl) && !f.uploadFields.FieldsObject? && Truthy(f.contentType) ==>
        PlanUpload(p).Ok? && PlanUpload(p).value.fields[0] == ("Content-Type", f.contentType.value) &&
        |PlanUpload(p).value.fields| == (if Truthy(f.contentDisposition) then 2 else 1)
    ensures var f := ResponseData(p).fields;
      Truthy(f.uploadUrl) && !f.uploadFields.FieldsObject? && !Truthy(f.contentType) ==>
        PlanUpload(p) == Err(OtherError(MissingFieldsMessage))
  {
  }

  /** The fallback fields never satisfy the storage policy check: all four
      policy fields are reported missing, so such an upload never leaves
      the client. */
  lemma FallbackFieldsAlwaysRefused(contentType: string, contentDisposition: Option<string>)
    ensures MissingFields(FallbackFields(contentType, contentDisposition)) == RequiredUploadFields
  {
    var fs := FallbackFields(contentType, contentDisposition);
    MissingFieldsInOrder(fs);
    forall name | name in RequiredUploadFields ensures Lookup(fs, name) == None {
      if Truthy(contentDisposition) {
        assert fs[1..][1..] == [];
        assert Lookup(fs[1..], name) == Lookup(fs[1..][1..], name);
      } else {
        assert fs[1..] == [];
      }
    }
    assert ["key"] + ["AWSAccessKeyId"] + ["policy"] + ["signature"] == RequiredUploadFields;
  }

  /** What `useUploadVideo` resolves to. */
  datatype UploadResult = UploadResult(fileId: string, fileUrl: string)

  /** `fileUrl || uploadUrl` */
  function StoredLocation(plan: UploadPlan): string {
    OrElse(plan.fileUrl, Some(plan.uploadUrl)).value
  }

  /** The presigned answer passes the hook's checks and the storage
      policy check, so the form goes out. */
  predicate PostsForm(presigned: Result<Payload, Thrown>) {
    presigned.Ok? && PlanUpload(presigned.value).Ok? &&
    MissingFields(PlanUpload(presigned.value).value.fields) == []
  }

  /** The POST that then goes to storage: the plan's fields in order, then
      the file, to the plan's upload URL. */
  function PostOf(presigned: Result<Payload, Thrown>, file: FileInfo): StoragePost
    requires PostsForm(presigned)
  {
    var plan := PlanUpload(presigned.value).value;
    StoragePost(plan.uploadUrl, UploadForm(plan.fields, file))
  }

  /** The whole upload succeeds: the form goes out and storage accepts it. */
  predicate UploadSucceeds(presigned: Result<Payload, Thrown>, storage: StorageOutcome) {
    PostsForm(presigned) && StorageResult(storage).Ok?
  }

  /** Why an upload fails, first failing step first: the presigned-URL
      request, the checks of its answer, the policy check, then storage. */
  function UploadFailure(presigned: Result<Payload, Thrown>, storage: StorageOutcome): Thrown
    requires !UploadSucceeds(presigned, storage)
  {
    if presigned.Err? then presigned.error
    else if PlanUpload(presigned.value).Err? then PlanUpload(presigned.value).error
    else if MissingFields(PlanUpload(presigned.value).value.fields) != [] then
      MissingFieldsError(PlanUpload(presigned.value).value.fields)
    else StorageResult(storage).error
  }

  /** The mutation of `useUploadVideo`: ask for a presigned URL, check the
      answer, build the field record, upload, and report where the file is. */
  method UploadVideoMutation(file: FileInfo, presigned: Result<Payload, Thrown>, storage: StorageOutcome)
    returns (sent: Option<StoragePost>, r: Result<UploadResult, Thrown>)
    ensures presigned.Err? ==> sent == None && r == Err(presigned.error)
    ensures presigned.Ok? && PlanUpload(presigned.value).Err? ==>
      sent == None && r == Err(PlanUpload(presigned.value).error)
    ensures sent.Some? ==> presigned.Ok? && PlanUpload(presigned.value).Ok?
    ensures sent.Some? ==> sent.value.url == PlanUpload(presigned.value).value.uploadUrl
    ensures sent.Some? ==> MissingFields(PlanUpload(presigned.value).value.fields) == []
    ensures r.Ok? ==> sent.Some? && storage.StorageResponded? && IsOk(storage.status)
    ensures r.Ok? ==> r.value.fileId == r.value.fileUrl == StoredLocation(PlanUpload(presigned.value).value)
    ensures sent.Some? && storage.StorageResponded? && IsOk(storage.status) ==> r.Ok?
    ensures presigned.Ok? && PlanUpload(presigned.value).Ok? &&
            MissingFields(PlanUpload(presigned.value).value.fields) != [] ==>
      sent == None && r == Err(MissingFieldsError(PlanUpload(presigned.value).value.fields))
    ensures PostsForm(presigned) ==> sent == Some(PostOf(presigned, file))
    ensures !PostsForm(presigned) ==> sent == None
    ensures PostsForm(presigned) && StorageResult(storage).Err? ==> r == Err(StorageResult(storage).error)
    ensures UploadSucceeds(presigned, storage) ==>
      var location := StoredLocation(PlanUpload(presigned.value).value);
      r == Ok(UploadResult(location, location))
    ensures !UploadSucceeds(presigned, storage) ==> r == Err(UploadFailure(presigned, storage))
  {
    if presigned.Err? {
      sent, r := None, Err(presigned.error);
      return;
    }
    var presignedResponse := presigned.value;
    if !TruthyPayload(presignedResponse) {
      sent, r := None, Err(OtherError(NoResponseMessage));
      return;
    }
    var responseData := ResponseData(presignedResponse);
    if !responseData.Record? {
      sent, r := None, Err(OtherError(InvalidResponseMessage));
      return;
    }
    var f := responseData.fields;
    if !Truthy(f.uploadUrl) {
      sent, r := None, Err(OtherError(MissingUploadUrlMessage));
      return;
    }
    var fieldsToUse: seq<(string, string)>;
    if f.uploadFields.FieldsObject? {
      fieldsToUse := f.uploadFields.entries;
    } else if Truthy(f.contentType) {
      fieldsToUse := [("Content-Type", f.contentType.value)];
      if Truthy(f.contentDisposition) {
        fieldsToUse := fieldsToUse + [("Content-Disposition", f.contentDisposition.value)];
      }
    } else {
      sent, r := None, Err(OtherError(MissingFieldsMessage));
      return;
    }
    assert fieldsToUse == PlanUpload(presignedResponse).value.fields;
    var uploaded;
    sent, uploaded := UploadVideo(f.uploadUrl.value, file, fieldsToUse, storage);
    if uploaded.Err? {
      r := Err(uploaded.error);
      return;
    }
    var location := OrElse(f.fileUrl, f.uploadUrl).value;
    r := Ok(UploadResult(location, location));
  }

  /** An answer in the old format (no `uploadFields` object) never uploads:
      the policy check refuses the fallback fields. */
  method OldFormatNeverUploads(file: FileInfo, p: Payload, storage: StorageOutcome)
    returns (sent: Option<StoragePost>, r: Result<UploadResult, Thrown>)
    requires TruthyPayload(p) && ResponseData(p).Record?
    requires !ResponseData(p).fields.uploadFields.FieldsObject?
    ensures sent == None && r.Err?
  {
    var f := ResponseData(p).fields;
    if Truthy(f.uploadUrl) && Truthy(f.contentType) {
      FallbackFieldsAlwaysRefused(f.contentType.value, f.contentDisposition);
    }
    sent, r := UploadVideoMutation(file, Ok(p), storage);
  }

  // ---------------------------------------------------------------------
  // Upload, then create the swing record

  /** The calls the combined mutation makes, in order. */
  datatype GatewayCall =
    | PresignCall
    | StorageCall(post: StoragePost)
    | CreateCall(body: CreateSwingBody)

  datatype UploadAndCreateResult = UploadAndCreateResult(fileId: string, fileUrl: string, swing: Payload)

  /** `useUploadVideoAndCreateSwing`: the swing record is created only after
      the storage upload has succeeded, from the stored file's location; a
      creation failure is reported as it is, after the upload happened. */
  method UploadAndCreate(file: FileInfo, tag: Option<string>, title: Option<string>,
                         description: Option<string>, today: string,
                         presigned: Result<Payload, Thrown>, storage: StorageOutcome,
                         created: Result<Payload, Thrown>)
    returns (calls: seq<GatewayCall>, r: Result<UploadAndCreateResult, Thrown>)
    ensures presigned.Err? ==> calls == [PresignCall] && r == Err(presigned.error)
    ensures UploadSucceeds(presigned, storage) ==>
      var location := StoredLocation(PlanUpload(presigned.value).value);
      calls == [PresignCall, StorageCall(PostOf(presigned, file)),
                CreateCall(CreateSwingRequest(location, tag, title, description, today))] &&
      (created.Ok? ==> r == Ok(UploadAndCreateResult(location, location, created.value))) &&
      (created.Err? ==> r == Err(created.error))
    ensures !UploadSucceeds(presigned, storage) ==>
      r == Err(UploadFailure(presigned, storage)) &&
      calls == [PresignCall] + (if PostsForm(presigned) then [StorageCall(PostOf(presigned, file))] else [])
  {
    calls := [PresignCall];
    var sent, uploaded := UploadVideoMutation(file, presigned, storage);
    assert uploaded.Ok? <==> UploadSucceeds(presigned, storage);
    assert sent.Some? <==> PostsForm(presigned);
    if sent.Some? {
      calls := calls + [StorageCall(sent.value)];
    }
    if uploaded.Err? {
      r := Err(uploaded.error);
      return;
    }
    assert uploaded.value.fileUrl == StoredLocation(PlanUpload(presigned.value).value);
    var body := CreateSwingRequest(uploaded.value.fileUrl, tag, title, description, today);
    calls := calls + [CreateCall(body)];
    if created.Err? {
      r := Err(created.error);
      return;
    }
    r := Ok(UploadAndCreateResult(uploaded.value.fileId, uploaded.value.fileUrl, created.value));
  }

  // ---------------------------------------------------------------------
  // Pose analysis query

  /** The members of an analysis answer the client reads: the status as the
      wire spells it, the snapshots, and a nested `data` envelope. */
  datatype AnalysisPayload = AnalysisPayload(
    status: Option<string>,
    snapshots: Option<PoseSnapshot>,
    data: Option<AnalysisPayload>)

  /** `response.data || response` */
  function UnwrapAnalysis(a: AnalysisPayload): AnalysisPayload {
    if a.data.Some? then a.data.value else a
  }

  /** The query function of `usePoseAnalysis`. The presigned-URL endpoint is
      asked first; when that call fails (a null answer fails too, on reading
      `.data`), the metadata endpoint is asked instead, and its failure is
      the query's failure. The status checks on a successful answer all
      return the same unwrapped value. */
  function FetchPoseAnalysis(primary: Result<Option<AnalysisPayload>, Thrown>,
                             fallback: Result<Option<AnalysisPayload>, Thrown>): (r: Result<AnalysisPayload, Thrown>)
    ensures primary.Ok? && primary.value.Some? ==> r == Ok(UnwrapAnalysis(primary.value.value))
    ensures !(primary.Ok? && primary.value.Some?) && fallback.Ok? && fallback.value.Some? ==>
      r == Ok(UnwrapAnalysis(fallback.value.value))
    ensures !(primary.Ok? && primary.value.Some?) && fallback.Err? ==> r == Err(fallback.error)
  {
    if primary.Ok? && primary.value.Some? then Ok(UnwrapAnalysis(primary.value.value))
    else if fallback.Err? then Err(fallback.error)
    else if fallback.value.Some? then Ok(UnwrapAnalysis(fallback.value.value))
    else Err(TypeError("Cannot read properties of null (reading 'data')"))
  }

  /** `enabled: !!swingId` */
  predicate QueryEnabled(swingId: string) {
    swingId != ""
  }

  const PollIntervalMs: nat := 3000

  /** `refetchInterval`: poll every 3 s while the cached answer says
      "processing"; otherwise do not poll (`false` is `None`). */
  function RefetchInterval(data: Option<AnalysisPayload>): (r: Option<nat>)
    ensures r.Some? <==> data.Some? && data.value.status == Some("processing")
    ensures r.Some? ==> r.value == PollIntervalMs
  {
    if data.Some? && data.value.status == Some("processing") then Some(PollIntervalMs) else None
  }

  /** Polling follows the unwrapped answer: an envelope whose inner status is
      "processing" keeps the query polling, whatever the outer one says. */
  lemma PollingFollowsEnvelope(inner: AnalysisPayload, outerStatus: Option<string>)
    requires inner.status == Some("processing")
    ensures var a := AnalysisPayload(outerStatus, None, Some(inner));
      RefetchInterval(Some(UnwrapAnalysis(a))) == Some(PollIntervalMs)
    ensures var a := AnalysisPayload(outerStatus, None, Some(inner));
      FetchPoseAnalysis(Ok(Some(a)), Err(NonError)) == Ok(inner)
  {
  }
}
