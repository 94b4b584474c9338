/** The remote data gateway (src/lib/api.ts): the endpoint table of
    `createAuthenticatedApi`, the request URL and headers `apiRequest`
    builds, the way it turns every failure into an `ApiError`, and the
    direct-to-storage upload with its policy-field check and form order.
    The network itself is not modelled: what `fetch` answers is an input. */
module Api {
  import opened Common
  import opened Types

  /** What a rejected promise carries. `ApiError` is the client's own error
      class, with the HTTP status (0 when no response was received). */
  datatype Thrown =
    | ApiError(status: nat, message: string)
    | TypeError(message: string)
    | OtherError(message: string)
    | NonError

  // ---------------------------------------------------------------------
  // Endpoints

  datatype HttpMethod = GET | POST | PUT | DELETE

  datatype Endpoint = Endpoint(verb: HttpMethod, path: string)

  /** The calls `createAuthenticatedApi` offers. An absent page or limit of
      `getLibrary` takes its default. */
  datatype Call =
    | GetLibrary(page: Option<nat>, limit: Option<nat>)
    | GetSwing(swingId: string)
    | CreateSwing
    | UpdateSwing(swingId: string)
    | DeleteSwing(swingId: string)
    | GetPresignedUrl
    | GetComparisons
    | GetComparison(comparisonId: string)
    | CreateComparison
    | UpdateComparison(comparisonId: string)
    | DeleteComparison(comparisonId: string)
    | GenerateSnapshots(swingId: string)
    | GetSnapshots(swingId: string)
    | GetPresignedSnapshotUrls(swingId: string)
    | TestSnapshots

  const DefaultPage: nat := 1
  const DefaultLimit: nat := 20

  function LibraryPath(page: Option<nat>, limit: Option<nat>): string {
    var p := if page.Some? then page.value else DefaultPage;
    var l := if limit.Some? then limit.value else DefaultLimit;
    "/swings?page=" + NatToString(p) + "&limit=" + NatToString(l)
  }

  function Route(c: Call): Endpoint {
    match c
    case GetLibrary(p, l) => Endpoint(GET, LibraryPath(p, l))
    case GetSwing(id) => Endpoint(GET, "/swings/" + id)
    case CreateSwing => Endpoint(POST, "/swings")
    case UpdateSwing(id) => Endpoint(PUT, "/swings/" + id)
    case DeleteSwing(id) => Endpoint(DELETE, "/swings/" + id)
    case GetPresignedUrl => Endpoint(POST, "/upload-url")
    case GetComparisons => Endpoint(GET, "/comparisons")
    case GetComparison(id) => Endpoint(GET, "/comparisons/" + id)
    case CreateComparison => Endpoint(POST, "/comparisons")
    case UpdateComparison(id) => Endpoint(PUT, "/comparisons/" + id)
    case DeleteComparison(id) => Endpoint(DELETE, "/comparisons/" + id)
    case GenerateSnapshots(id) => Endpoint(POST, "/swings/" + id + "/snapshots/generate")
    case GetSnapshots(id) => Endpoint(GET, "/swings/" + id + "/snapshots")
    case GetPresignedSnapshotUrls(id) => Endpoint(GET, "/swings/" + id + "/snapshots/presigned-urls")
    case TestSnapshots => Endpoint(POST, "/swings/test-snapshots")
  }

  /** `getLibrary()` asks for page 1 of 20, and an explicit page and limit
      appear verbatim in the query string. */
  lemma LibraryPathDefaults(p: nat, l: nat)
    ensures Route(GetLibrary(None, None)).path == "/swings?page=1&limit=20"
    ensures Route(GetLibrary(Some(p), Some(l))).path ==
      "/swings?page=" + NatToString(p) + "&limit=" + NatToString(l)
  {
  }

  /** The calls addressed by a swing id put it between "/swings/" and a
      suffix that is empty or starts with a slash. */
  predicate IsSwingSubresource(c: Call) {
    c.GetSwing? || c.GenerateSnapshots? || c.GetSnapshots? || c.GetPresignedSnapshotUrls?
  }

  function SwingSuffix(c: Call): string
    requires IsSwingSubresource(c)
  {
    match c
    case GetSwing(_) => ""
    case GenerateSnapshots(_) => "/snapshots/generate"
    case GetSnapshots(_) => "/snapshots"
    case GetPresignedSnapshotUrls(_) => "/snapshots/presigned-urls"
  }

  /** Two strings glued to suffixes that are empty or start with '/' can
      be split back apart when neither contains a slash. */
  lemma SplitAtSlash(a: string, s: string, b: string, t: string)
    requires '/' !in a && '/' !in b
    requires s == [] || s[0] == '/'
    requires t == [] || t[0] == '/'
    requires a + s == b + t
    ensures a == b && s == t
  {
    FirstIndexAfter(a, s, '/');
    FirstIndexAfter(b, t, '/');
    assert a == (a + s)[..|a|] && b == (b + t)[..|b|];
    assert s == (a + s)[|a|..] && t == (b + t)[|b|..];
  }

  /** Routing of the swing sub-resources is unambiguous as long as swing ids
      contain no slash: equal (method, path) pairs come from the same call. */
  lemma SwingRoutesUnambiguous(c1: Call, c2: Call)
    requires IsSwingSubresource(c1) && IsSwingSubresource(c2)
    requires '/' !in c1.swingId && '/' !in c2.swingId
    requires Route(c1) == Route(c2)
    ensures c1 == c2
  {
    var p := "/swings/";
    SwingPath(c1);
    SwingPath(c2);
    assert c1.swingId + SwingSuffix(c1) == (p + (c1.swingId + SwingSuffix(c1)))[|p|..];
    assert c2.swingId + SwingSuffix(c2) == (p + (c2.swingId + SwingSuffix(c2)))[|p|..];
    SplitAtSlash(c1.swingId, SwingSuffix(c1), c2.swingId, SwingSuffix(c2));
    SuffixDetermines(c1, c2);
  }

  /** A swing sub-resource's path is "/swings/", the id, then its suffix. */
  lemma SwingPath(c: Call)
    requires IsSwingSubresource(c)
    ensures Route(c).path == "/swings/" + (c.swingId + SwingSuffix(c))
    ensures SwingSuffix(c) == [] || SwingSuffix(c)[0] == '/'
  {
  }

  /** The id and the suffix together identify the call. */
  lemma SuffixDetermines(c1: Call, c2: Call)
    requires IsSwingSubresource(c1) && IsSwingSubresource(c2)
    requires c1.swingId == c2.swingId && SwingSuffix(c1) == SwingSuffix(c2)
    requires Route(c1).verb == Route(c2).verb
    ensures c1 == c2
  {
    if c1.GetSnapshots? || c2.GetSnapshots? {
      assert |SwingSuffix(c1)| == |SwingSuffix(c2)| == 10;
    }
  }

  /** Without that condition routes collide: the swing whose id is
      "7/snapshots" is fetched from the snapshot endpoint of swing "7". */
  lemma SlashInIdCollides()
    ensures Route(GetSwing("7/snapshots")) == Route(GetSnapshots("7"))
  {
  }

  // ---------------------------------------------------------------------
  // Request URL and headers

  const DefaultBaseUrl := "http://localhost:8000"

  /** `process.env.NEXT_PUBLIC_API_URL || 'http://localhost:8000'` */
  function BaseUrl(env: Option<string>): (r: string)
    ensures Truthy(env) ==> r == env.value
    ensures !Truthy(env) ==> r == DefaultBaseUrl
  {
    OrElse(env, Some(DefaultBaseUrl)).value
  }

  /** `${API_BASE_URL}${endpoint}`: the endpoint can be read back from the
      URL, whatever the base. */
  function RequestUrl(env: Option<string>, endpoint: string): (r: string)
    ensures StartsWith(r, BaseUrl(env)) && r[|BaseUrl(env)|..] == endpoint
  {
    BaseUrl(env) + endpoint
  }

  /** Under one configuration, distinct endpoints are requested at
      distinct URLs. */
  lemma RequestUrlInjective(env: Option<string>, e1: string, e2: string)
    requires RequestUrl(env, e1) == RequestUrl(env, e2)
    ensures e1 == e2
  {
    var b := BaseUrl(env);
    assert e1 == RequestUrl(env, e1)[|b|..];
    assert e2 == RequestUrl(env, e2)[|b|..];
  }

  /** The routing guarantee carries over to the URLs actually requested:
      with slash-free ids, two swing sub-resource requests that go to the
      same URL with the same method are the same call. */
  lemma SwingRequestsUnambiguous(env: Option<string>, c1: Call, c2: Call)
    requires IsSwingSubresource(c1) && IsSwingSubresource(c2)
    requires '/' !in c1.swingId && '/' !in c2.swingId
    requires Route(c1).verb == Route(c2).verb
    requires RequestUrl(env, Route(c1).path) == RequestUrl(env, Route(c2).path)
    ensures c1 == c2
  {
    RequestUrlInjective(env, Route(c1).path, Route(c2).path);
    SwingRoutesUnambiguous(c1, c2);
  }

  type Headers = map<string, string>

  /** The headers `apiRequest` puts first: a JSON content type and, when a
      token is present, a bearer credential (section 2.1 of RFC 6750). */
  function DefaultHeaders(token: Option<string>): Headers {
    map["Content-Type" := "application/json"] +
      (if Truthy(token) then map["Authorization" := "Bearer " + token.value] else map[])
  }

  /** The headers the request goes out with, as `apiRequest` writes it:
      `{ headers: {...defaults, ...caller}, ...requestOptions }`. Because
      `requestOptions` still holds the caller's `headers`, the later spread
      replaces the merged object wholesale when the caller passed any. */
  function SentHeadersAsWritten(token: Option<string>, caller: Option<Headers>): Headers {
    var merged := DefaultHeaders(token) + (if caller.Some? then caller.value else map[]);
    if caller.Some? then caller.value else merged
  }

  /** The evidently intended merge: defaults first, caller headers on top. */
  function SentHeaders(token: Option<string>, caller: Option<Headers>): (h: Headers)
    ensures caller.Some? ==> forall k :: k in caller.value ==> k in h && h[k] == caller.value[k]
    ensures forall k :: k in DefaultHeaders(token) && (caller.None? || k !in caller.value) ==>
      k in h && h[k] == DefaultHeaders(token)[k]
  {
    DefaultHeaders(token) + (if caller.Some? then caller.value else map[])
  }

  /** With no caller headers (every call in `createAuthenticatedApi`), the
      request carries a JSON content type, and an Authorization header
      exactly when the token is non-empty, whose value is "Bearer <token>";
      the written and the intended header building agree. */
  lemma BearerOnlyWithToken(token: Option<string>)
    ensures SentHeadersAsWritten(token, None) == SentHeaders(token, None)
    ensures "Content-Type" in SentHeaders(token, None) &&
      SentHeaders(token, None)["Content-Type"] == "application/json"
    ensures "Authorization" in SentHeaders(token, None) <==> Truthy(token)
    ensures Truthy(token) ==> SentHeaders(token, None)["Authorization"] == "Bearer " + token.value
    ensures SentHeaders(token, None).Keys <= {"Content-Type", "Authorization"}
  {
  }

  /** As written, a caller that passes any header of its own loses the
      bearer credential and the JSON content type. */
  lemma CallerHeadersDropCredential()
    ensures "Authorization" !in SentHeadersAsWritten(Some("t0k"), Some(map["X-Trace" := "1"]))
    ensures "Authorization" in SentHeaders(Some("t0k"), Some(map["X-Trace" := "1"]))
  {
  }

  // ---------------------------------------------------------------------
  // Failure mapping

  /** The message of the ApiError that stands for an unreachable server. */
  const NetworkErrorMessage :=
    NetworkErrorPrefix + ": Unable to connect to the server. Please check if the API server is running."

  /** The words the message opens with (kept separate so that the page's
      recognition of the message can be proved). */
  const NetworkErrorPrefix := "Network error"

  /** The `catch` block of `apiRequest`. */
  function CatchToApiError(e: Thrown): Thrown {
    if e.TypeError? && e.message == "Failed to fetch" then ApiError(0, NetworkErrorMessage)
    else if e.ApiError? then e
    else if e.NonError? then ApiError(0, "Unknown error")
    else ApiError(0, e.message)
  }

  /** The catch block yields an ApiError on every path: status 0 for
      everything but an ApiError, which it rethrows untouched. */
  lemma CatchToApiErrorSpec(e: Thrown)
    ensures CatchToApiError(e).ApiError?
    ensures e.ApiError? ==> CatchToApiError(e) == e
    ensures !e.ApiError? ==> CatchToApiError(e).status == 0
    ensures e == TypeError("Failed to fetch") ==> CatchToApiError(e).message == NetworkErrorMessage
    ensures (e.TypeError? || e.OtherError?) && e.message != "Failed to fetch" ==>
      CatchToApiError(e).message == e.message
  {
  }

  /** What `fetch` did: it rejected, or it answered with a status, a body
      text and the outcome of parsing that body as JSON. */
  datatype FetchOutcome<T> =
    | Rejected(reason: Thrown)
    | Responded(status: nat, bodyText: string, json: Result<T, Thrown>)

  /** `response.ok` */
  predicate IsOk(status: nat) {
    200 <= status <= 299
  }

  function HttpErrorMessage(status: nat, text: string): string {
    "HTTP error! status: " + NatToString(status) + " - " + text
  }

  /** The result of `apiRequest` given what `fetch` did. The `ApiError` for
      a non-2xx answer is thrown inside the `try`, so it passes the catch. */
  function RequestOutcome<T>(o: FetchOutcome<T>): Result<T, Thrown> {
    match o
    case Rejected(e) => Err(CatchToApiError(e))
    case Responded(status, text, json) =>
      if !IsOk(status) then Err(CatchToApiError(ApiError(status, HttpErrorMessage(status, text))))
      else if json.Ok? then Ok(json.value)
      else Err(CatchToApiError(json.error))
  }

  /** The message of a failed answer names its status and its body. */
  lemma HttpErrorMessageNames(status: nat, text: string)
    ensures Contains(HttpErrorMessage(status, text), NatToString(status))
    ensures Contains(HttpErrorMessage(status, text), text)
  {
    var pre := "HTTP error! status: ";
    var n := NatToString(status);
    var m := HttpErrorMessage(status, text);
    assert m[|pre|..|pre| + |n|] == n;
    ContainsAt(m, n, |pre|);
    var k := |pre| + |n| + 3;
    assert m[k..k + |text|] == text;
    ContainsAt(m, text, k);
  }

  /** `apiRequest` rejects only with ApiErrors; a non-2xx answer keeps its
      status and names it and the body in the message; a network failure or
      an unreadable body has status 0; a 2xx answer with a JSON body
      resolves to that body. */
  lemma RequestOutcomeSpec<T>(o: FetchOutcome<T>)
    ensures RequestOutcome(o).Err? ==> RequestOutcome(o).error.ApiError?
    ensures o.Responded? && !IsOk(o.status) ==>
      RequestOutcome(o).Err? && RequestOutcome(o).error.status == o.status &&
      Contains(RequestOutcome(o).error.message, NatToString(o.status)) &&
      Contains(RequestOutcome(o).error.message, o.bodyText)
    ensures o.Rejected? && !o.reason.ApiError? ==>
      RequestOutcome(o).Err? && RequestOutcome(o).error.status == 0
    ensures o.Responded? && IsOk(o.status) && o.json.Ok? ==> RequestOutcome(o) == Ok(o.json.value)
    ensures o.Responded? && IsOk(o.status) && o.json.Err? && !o.json.error.ApiError? ==>
      RequestOutcome(o).Err? && RequestOutcome(o).error.status == 0
  {
    if o.Responded? && !IsOk(o.status) {
      HttpErrorMessageNames(o.status, o.bodyText);
    }
    if o.Rejected? {
      CatchToApiErrorSpec(o.reason);
    }
    if o.Responded? && IsOk(o.status) && o.json.Err? {
      CatchToApiErrorSpec(o.json.error);
    }
  }

  // ---------------------------------------------------------------------
  // Direct upload to storage

  /** The POST-policy fields the storage service needs, in the order the
      check lists them. */
  const RequiredUploadFields: seq<string> := ["key", "AWSAccessKeyId", "policy", "signature"]

  /** `fields[name]` on a record given by its entries in insertion order. */
  function Lookup(fields: seq<(string, string)>, name: string): Option<string>
    decreases |fields|
  {
    if fields == [] then None
    else if fields[0].0 == name then Some(fields[0].1)
    else Lookup(fields[1..], name)
  }

  /** `names.filter(field => !fields[field])` */
  function MissingAmong(names: seq<string>, fields: seq<(string, string)>): seq<string>
    decreases |names|
  {
    if names == [] then []
    else (if Truthy(Lookup(fields, names[0])) then [] else [names[0]]) + MissingAmong(names[1..], fields)
  }

  /** A name is reported missing exactly when it is required and its value
      is absent or empty. */
  lemma {:induction false} MissingAmongMembers(names: seq<string>, fields: seq<(string, string)>, x: string)
    ensures x in MissingAmong(names, fields) <==> x in names && !Truthy(Lookup(fields, x))
    decreases |names|
  {
    if names != [] {
      MissingAmongMembers(names[1..], fields, x);
      assert names == [names[0]] + names[1..];
    }
  }

  function MissingFields(fields: seq<(string, string)>): seq<string> {
    MissingAmong(RequiredUploadFields, fields)
  }

  /** The missing fields are listed in the fixed order key, AWSAccessKeyId,
      policy, signature, each exactly when it is absent or empty. */
  lemma MissingFieldsInOrder(fields: seq<(string, string)>)
    ensures MissingFields(fields) ==
      (if Truthy(Lookup(fields, "key")) then [] else ["key"]) +
      (if Truthy(Lookup(fields, "AWSAccessKeyId")) then [] else ["AWSAccessKeyId"]) +
      (if Truthy(Lookup(fields, "policy")) then [] else ["policy"]) +
      (if Truthy(Lookup(fields, "signature")) then [] else ["signature"])
  {
    MissingAmongFour("key", "AWSAccessKeyId", "policy", "signature", fields);
  }

  /** The filter over four names reports them in their order. */
  lemma MissingAmongFour(a: string, b: string, c: string, d: string, fields: seq<(string, string)>)
    ensures MissingAmong([a, b, c, d], fields) ==
      (if Truthy(Lookup(fields, a)) then [] else [a]) +
      (if Truthy(Lookup(fields, b)) then [] else [b]) +
      (if Truthy(Lookup(fields, c)) then [] else [c]) +
      (if Truthy(Lookup(fields, d)) then [] else [d])
  {
    MissingAmongCons(a, [b, c, d], fields);
    MissingAmongCons(b, [c, d], fields);
    MissingAmongCons(c, [d], fields);
    MissingAmongCons(d, [], fields);
    assert [a, b, c, d] == [a] + [b, c, d];
    assert [b, c, d] == [b] + [c, d];
    assert [c, d] == [c] + [d];
    assert [d] == [d] + [];
  }

  /** One step of the filter: the head is reported before the rest. */
  lemma MissingAmongCons(name: string, rest: seq<string>, fields: seq<(string, string)>)
    ensures MissingAmong([name] + rest, fields) ==
      (if Truthy(Lookup(fields, name)) then [] else [name]) + MissingAmong(rest, fields)
  {
    assert ([name] + rest)[1..] == rest;
  }

  datatype FormEntry =
    | TextEntry(name: string, value: string)
    | FileEntry(name: string, file: FileInfo)

  /** The multipart body (RFC 7578 multipart/form-data) as a value: one
      text part per field, then the file. */
  function UploadForm(fields: seq<(string, string)>, file: FileInfo): seq<FormEntry> {
    seq(|fields|, i requires 0 <= i < |fields| => TextEntry(fields[i].0, fields[i].1)) + [FileEntry("file", file)]
  }

  /** The multipart body (RFC 7578 multipart/form-data): every field in
      entry order, then the file as the last part, named "file". */
  method BuildUploadForm(fields: seq<(string, string)>, file: FileInfo) returns (form: seq<FormEntry>)
    ensures form == UploadForm(fields, file)
    ensures |form| == |fields| + 1
    ensures forall i :: 0 <= i < |fields| ==> form[i] == TextEntry(fields[i].0, fields[i].1)
    ensures form[|fields|] == FileEntry("file", file)
  {
    form := [];
    var i := 0;
    while i < |fields|
      invariant 0 <= i <= |fields|
      invariant |form| == i
      invariant forall j :: 0 <= j < i ==> form[j] == TextEntry(fields[j].0, fields[j].1)
    {
      form := form + [TextEntry(fields[i].0, fields[i].1)];
      i := i + 1;
    }
    form := form + [FileEntry("file", file)];
  }

  /** The POST the client sends to storage. */
  datatype StoragePost = StoragePost(url: string, form: seq<FormEntry>)

  /** What the storage service did with the POST. */
  datatype StorageOutcome =
    | StorageRejected(reason: Thrown)
    | StorageResponded(status: nat, statusText: string)

  /** The error `uploadVideo` throws when policy fields are missing. */
  function MissingFieldsError(fields: seq<(string, string)>): Thrown {
    OtherError("Missing required S3 fields: " + Join(MissingFields(fields), ", "))
  }

  /** How the storage answer ends the upload: a rejected fetch propagates,
      a non-2xx answer becomes an ApiError carrying its status. */
  function StorageResult(storage: StorageOutcome): (r: Result<(), Thrown>)
    ensures storage.StorageRejected? ==> r == Err(storage.reason)
    ensures storage.StorageResponded? ==> (r.Ok? <==> IsOk(storage.status))
    ensures storage.StorageResponded? && r.Err? ==>
      r.error == ApiError(storage.status, "Upload failed: " + storage.statusText)
  {
    match storage
    case StorageRejected(e) => Err(e)
    case StorageResponded(status, text) =>
      if IsOk(status) then Ok(()) else Err(ApiError(status, "Upload failed: " + text))
  }

  /** `uploadVideo`: refuse before any I/O when a policy field is missing,
      otherwise post the form and turn a non-2xx answer into an ApiError
      with that status. A rejected fetch propagates as it is. */
  method UploadVideo(presignedUrl: string, file: FileInfo, fields: seq<(string, string)>,
                     storage: StorageOutcome)
    returns (sent: Option<StoragePost>, r: Result<StoragePost, Thrown>)
    ensures MissingFields(fields) != [] ==>
      sent == None &&
      r == Err(OtherError("Missing required S3 fields: " + Join(MissingFields(fields), ", ")))
    ensures MissingFields(fields) == [] ==>
      sent == Some(StoragePost(presignedUrl, UploadForm(fields, file))) &&
      (StorageResult(storage).Err? ==> r == Err(StorageResult(storage).error)) &&
      (StorageResult(storage).Ok? ==> r == Ok(sent.value))
    ensures MissingFields(fields) == [] ==>
      sent.Some? && sent.value.url == presignedUrl &&
      |sent.value.form| == |fields| + 1 &&
      (forall i :: 0 <= i < |fields| ==> sent.value.form[i] == TextEntry(fields[i].0, fields[i].1)) &&
      sent.value.form[|fields|] == FileEntry("file", file) &&
      match storage
      case StorageRejected(e) => r == Err(e)
      case StorageResponded(status, text) =>
        if IsOk(status) then r == Ok(sent.value)
        else r == Err(ApiError(status, "Upload failed: " + text))
  {
    var missing := MissingFields(fields);
    if |missing| > 0 {
      sent := None;
      r := Err(OtherError("Missing required S3 fields: " + Join(missing, ", ")));
      return;
    }
    var form := BuildUploadForm(fields, file);
    var post := StoragePost(presignedUrl, form);
    sent := Some(post);
    match storage
    case StorageRejected(e) =>
      r := Err(e);
    case StorageResponded(status, text) =>
      if IsOk(status) {
        r := Ok(post);
      } else {
        r := Err(ApiError(status, "Upload failed: " + text));
      }
  }
}
